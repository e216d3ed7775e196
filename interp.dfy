/** The interpreter of golfscript.js: the scan/dispatch loop `_interpret`
    (golfscript.js:36-63), its matchers and the operators. The symbol table and every
    value live in one `Interp`; the stack is passed along, as in the source, because
    array literals and block sorting run the loop on stacks of their own. */
module Interpreter {
  import opened Outcomes
  import opened Values
  import opened Stacks
  import opened Text
  import opened Sorting
  import opened Rendering

  /** The characters that doAction hands to an operator (golfscript.js:169-213); a
      space is treated on its own. */
  predicate IsOperator(c: char) {
    c in "+-*/.\\@;)(`~!$"
  }

  /** The `min` that doAction passes to minArgs for a character. */
  function Arity(c: char): (r: nat)
    ensures 1 <= r <= 3
    ensures r == 2 <==> c in "+-*/\\"
    ensures r == 3 <==> c == '@'
  {
    if c in "+-*/\\" then 2 else if c == '@' then 3 else 1
  }

  /** What quote makes of a number, a string or a block. */
  function Quoted(d: Payload): string
    requires !d.Arr?
  {
    match d
    case Num(n) => DecimalText(n)
    case Str(s) => "\"" + Escaped(s) + "\""
    case Blk(t) => "{" + t + "}"
  }

  /** Operator c on a top of payload d runs code: `$`, and `~` on a block or a string. */
  predicate RunsCode(c: char, d: Payload) {
    c == '$' || (c == '~' && IsText(d))
  }

  /** The two kinds whose text `~` and the loops run. */
  predicate IsText(d: Payload) {
    d.Str? || d.Blk?
  }

  function TextOf(d: Payload): string
    requires IsText(d)
  {
    if d.Str? then d.s else d.text
  }

  /** c is a fresh deep copy of v. */
  ghost predicate IsCopyOf(c: Value, v: Value)
    reads c.Repr, v.Repr
  {
    Tree(c) && Tree(v) && Alike(c, v)
  }

  /** The stack is `below` with one new value of payload d on top. */
  twostate predicate Pushed(st: Stack, below: seq<Value>, d: Payload)
    reads st, st.items
  {
    |st.items| == |below| + 1 && st.items[..|below|] == below &&
    fresh(st.items[|below|]) && st.items[|below|].data == d
  }

  /** add, sub, mult and div on two numbers; div only where it is exact. */
  function Combine(c: char, a: int, b: int): int
    requires c in "+-*/" && (c == '/' ==> b != 0)
  {
    if c == '+' then a + b else if c == '-' then a - b else if c == '*' then a * b else a / b
  }

  /** What operator c does to a stack st that held s, once minArgs has seen enough
      values: its outcome r and the new stack. `$`, and `~` on a block or a string,
      run code; their effects are stated by DollarSign and Tilde alone. */
  twostate predicate Effect(st: Stack, s: seq<Value>, c: char, new r: Result<()>)
    requires |s| >= Arity(c)
    reads st, st.items, s, Footprint(st.items)
  {
    var n := |s|;
    (c == '\\' ==> r == Ok(()) && st.items == s[..n - 2] + [s[n - 1], s[n - 2]]) &&
    (c == '@' ==> r == Ok(()) && st.items == s[..n - 3] + [s[n - 2], s[n - 1], s[n - 3]]) &&
    (c == ';' ==> r == Ok(()) && st.items == s[..n - 1]) &&
    (c in "! " ==> r == Ok(()) && Pushed(st, s[..n - 1], Num(if Falsy(old(s[n - 1].data)) then 1 else 0))) &&
    (c == '.' ==>
       r == Ok(()) && |st.items| == n + 1 && st.items[..n] == s && fresh(st.items[n]) &&
       IsCopyOf(st.items[n], s[n - 1]) && Unshared(st.items[n]) &&
       forall u :: u in st.items[n].Repr ==> fresh(u)) &&
    (c in "+-*/" ==>
       var a, b := old(s[n - 2].data), old(s[n - 1].data);
       if !a.Num? || !b.Num? then r == Err(TypeConfused)
       else if c == '/' && (b.n == 0 || a.n % b.n != 0) then r == Err(Inexact)
       else r == Ok(()) && Pushed(st, s[..n - 2], Num(Combine(c, a.n, b.n)))) &&
    (c in ")(" ==>
       var d := old(s[n - 1].data);
       if !d.Num? then r == Err(TypeConfused)
       else r == Ok(()) && st.items == s && s[n - 1].data == Num(if c == ')' then d.n + 1 else d.n - 1)) &&
    (c == '`' ==>
       var d := old(s[n - 1].data);
       if d.Arr? then r == Err(TypeConfused) else r == Ok(()) && Pushed(st, s[..n - 1], Str(Quoted(d)))) &&
    (c == '~' ==>
       var d := old(s[n - 1].data);
       (d.Num? ==> r == Ok(()) && Pushed(st, s[..n - 1], Num(-d.n - 1))) &&
       (d.Arr? ==> r == Ok(()) && st.items == s[..n - 1] + d.elems))
  }

  ghost predicate NumericallySorted(xs: seq<Value>)
    reads set e | e in xs
  {
    forall a, b :: 0 <= a < b < |xs| ==>
      xs[a].data.Num? && xs[b].data.Num? && xs[a].data.n <= xs[b].data.n
  }

  /** Every number paired with itself as key. */
  function NumberKeys(es: seq<Value>): (r: seq<(int, Value)>)
    requires forall e :: e in es ==> e.data.Num?
    reads set e | e in es
    ensures Seconds(r) == es
    ensures forall p :: p in r ==> p.1.data.Num? && p.0 == p.1.data.n
  {
    if es == [] then []
    else
      var r := [(es[0].data.n, es[0])] + NumberKeys(es[1..]);
      assert r[1..] == NumberKeys(es[1..]);
      r
  }

  lemma KeysAreNumbers(s: seq<(int, Value)>, t: seq<(int, Value)>)
    requires forall p :: p in s ==> p.1.data.Num? && p.0 == p.1.data.n
    requires multiset(t) == multiset(s)
    ensures forall k :: 0 <= k < |t| ==> t[k].1.data.Num? && t[k].0 == t[k].1.data.n
  {
    forall k | 0 <= k < |t|
      ensures t[k].1.data.Num? && t[k].0 == t[k].1.data.n
    {
      assert t[k] in multiset(t);
    }
  }

  /** The comparator `a.data - b.data` of `$` on an array of numbers: the elements
      in ascending order. */
  function NumericOrder(es: seq<Value>): (r: seq<Value>)
    requires forall e :: e in es ==> e.data.Num?
    reads set e | e in es
    ensures multiset(r) == multiset(es)
    ensures NumericallySorted(r)
  {
    var sorted := SortByKey(NumberKeys(es));
    KeysAreNumbers(NumberKeys(es), sorted);
    Seconds(sorted)
  }

  class Interp {
    /** The symbol table: names bound to the very objects that were on top. */
    var table: map<string, Value>
    /** Every value this interpreter has made. */
    ghost var values: set<Value>

    ghost predicate Valid()
      reads this, values
    {
      (forall v :: v in values ==> v.Repr <= values && Wf(v)) &&
      (forall name :: name in table ==> table[name] in values)
    }

    /** Everything on the stack was made here. */
    ghost predicate Holds(st: Stack)
      reads this, st
    {
      forall v :: v in st.items ==> v in values
    }

    /** Values are only ever added, and the added ones are new. */
    twostate predicate Grew()
      reads this
    {
      old(values) <= values && fresh(values - old(values))
    }

    /** Nothing observable changed. */
    twostate predicate Same(st: Stack)
      reads this, st, values
    {
      st.items == old(st.items) && table == old(table) && values == old(values) &&
      forall v :: v in values ==> v.data == old(v.data)
    }

    constructor ()
      ensures Valid() && table == map[] && values == {}
    {
      table := map[];
      values := {};
    }

    lemma ValueTree(v: Value)
      requires Valid() && v in values
      ensures Tree(v)
    {
    }

    lemma ElementsHeld(v: Value)
      requires Valid() && v in values && v.data.Arr?
      ensures forall e :: e in v.data.elems ==> e in values
    {
      assert Wf(v);
    }

    /** Node (golfscript.js:1-6): a new value. */
    method Make(d: Payload) returns (v: Value)
      requires Valid()
      requires d.Arr? ==> forall e :: e in d.elems ==> e in values
      modifies this
      ensures Valid() && fresh(v) && v.data == d && v.Repr == {v} + Children(d)
      ensures values == old(values) + {v} && table == old(table)
    {
      v := new Value(d);
      values := values + {v};
    }

    /** `JSON.parse(JSON.stringify(v))`: a fresh value of the same shape and contents,
        no node of which is shared. */
    method DeepCopy(v: Value) returns (c: Value)
      requires Valid() && v in values
      modifies this
      ensures Valid() && Grew() && table == old(table)
      ensures fresh(c) && c in values && IsCopyOf(c, v) && Unshared(c)
      ensures forall u :: u in c.Repr ==> fresh(u)
      decreases v.Repr, 1
    {
      ValueTree(v);
      match v.data
      case Arr(es) =>
        var copies := CopyElements(v);
        c := Make(Arr(copies));
        ValueTree(c);
        ArrayAlike(c, v);
        forall u | u in c.Repr
          ensures fresh(u)
        {
          if u != c {
            assert u in Footprint(copies);
          }
        }
        ArrayUnshared(c);
      case _ =>
        c := Make(v.data);
        ValueTree(c);
    }

    /** Deep copies of the elements of array v, in order, no two sharing a node. */
    method CopyElements(v: Value) returns (copies: seq<Value>)
      requires Valid() && v in values && v.data.Arr?
      modifies this
      ensures Valid() && Grew() && table == old(table)
      ensures |copies| == |v.data.elems|
      ensures forall m :: 0 <= m < |copies| ==>
                fresh(copies[m]) && copies[m] in values && IsCopyOf(copies[m], v.data.elems[m]) && Unshared(copies[m])
      ensures forall m, u :: 0 <= m < |copies| && u in copies[m].Repr ==> fresh(u)
      ensures forall m, m' :: 0 <= m < m' < |copies| ==> copies[m].Repr !! copies[m'].Repr
      decreases v.Repr, 0
    {
      ValueTree(v);
      ElementsHeld(v);
      var es := v.data.elems;
      copies := [];
      for k := 0 to |es|
        invariant |copies| == k
        invariant Valid() && Grew() && table == old(table)
        invariant forall e :: e in es ==> e in values
        invariant forall m :: 0 <= m < k ==>
                    fresh(copies[m]) && copies[m] in values && IsCopyOf(copies[m], es[m]) && Unshared(copies[m])
        invariant forall m, u :: 0 <= m < k && u in copies[m].Repr ==> fresh(u)
        invariant forall m, m' :: 0 <= m < m' < k ==> copies[m].Repr !! copies[m'].Repr
      {
        ElementTree(v, es[k]);
        var copy := DeepCopy(es[k]);
        copies := copies + [copy];
      }
    }

    // -------------------------------------------------------------------------
    // Operators (golfscript.js:233-356)

    /** add: the sum of the top two numbers replaces them. */
    method Add(st: Stack) returns (r: Result<()>)
      requires Valid() && Holds(st)
      modifies this, st
      ensures Valid() && Holds(st) && Grew() && table == old(table)
      ensures var s := old(st.items); var n := |s|;
              if n < 2 then r == Err(StackUnderflow)
              else if !s[n - 2].data.Num? || !s[n - 1].data.Num? then r == Err(TypeConfused)
              else r == Ok(()) && Pushed(st, s[..n - 2], Num(s[n - 2].data.n + s[n - 1].data.n))
    {
      var b :- st.Pop();
      var a :- st.Pop();
      if !a.data.Num? || !b.data.Num? {
        return Err(TypeConfused);
      }
      var v := Make(Num(b.data.n + a.data.n));
      st.Push(v);
      r := Ok(());
    }

    /** mult: the product of the top two numbers replaces them. */
    method Mult(st: Stack) returns (r: Result<()>)
      requires Valid() && Holds(st)
      modifies this, st
      ensures Valid() && Holds(st) && Grew() && table == old(table)
      ensures var s := old(st.items); var n := |s|;
              if n < 2 then r == Err(StackUnderflow)
              else if !s[n - 2].data.Num? || !s[n - 1].data.Num? then r == Err(TypeConfused)
              else r == Ok(()) && Pushed(st, s[..n - 2], Num(s[n - 2].data.n * s[n - 1].data.n))
    {
      var b :- st.Pop();
      var a :- st.Pop();
      if !a.data.Num? || !b.data.Num? {
        return Err(TypeConfused);
      }
      var v := Make(Num(b.data.n * a.data.n));
      st.Push(v);
      r := Ok(());
    }

    /** sub: on `... a b`, skipPop takes a and pop takes b, leaving `... a-b`. */
    method Sub(st: Stack) returns (r: Result<()>)
      requires Valid() && Holds(st)
      modifies this, st
      ensures Valid() && Holds(st) && Grew() && table == old(table)
      ensures var s := old(st.items); var n := |s|;
              if n < 2 then r == Err(StackUnderflow)
              else if !s[n - 2].data.Num? || !s[n - 1].data.Num? then r == Err(TypeConfused)
              else r == Ok(()) && Pushed(st, s[..n - 2], Num(s[n - 2].data.n - s[n - 1].data.n))
    {
      var a :- st.SkipPop();
      var popped := st.Pop();
      var b := popped.value;
      if !a.data.Num? || !b.data.Num? {
        return Err(TypeConfused);
      }
      var v := Make(Num(a.data.n - b.data.n));
      st.Push(v);
      r := Ok(());
    }

    /** div: on `... a b`, `... a/b` when b divides a; any other quotient is a
        JavaScript double, which this model does not represent. */
    method Div(st: Stack) returns (r: Result<()>)
      requires Valid() && Holds(st)
      modifies this, st
      ensures Valid() && Holds(st) && Grew() && table == old(table)
      ensures var s := old(st.items); var n := |s|;
              if n < 2 then r == Err(StackUnderflow)
              else if !s[n - 2].data.Num? || !s[n - 1].data.Num? then r == Err(TypeConfused)
              else if s[n - 1].data.n == 0 || s[n - 2].data.n % s[n - 1].data.n != 0 then r == Err(Inexact)
              else r == Ok(()) && Pushed(st, s[..n - 2], Num(s[n - 2].data.n / s[n - 1].data.n)) &&
                   st.Top().data.n * s[n - 1].data.n == s[n - 2].data.n
    {
      var a :- st.SkipPop();
      var popped := st.Pop();
      var b := popped.value;
      if !a.data.Num? || !b.data.Num? {
        return Err(TypeConfused);
      }
      if b.data.n == 0 || a.data.n % b.data.n != 0 {
        return Err(Inexact);
      }
      var v := Make(Num(a.data.n / b.data.n));
      st.Push(v);
      r := Ok(());
    }

    /** dup: a deep copy of the top goes on top. */
    method Dup(st: Stack) returns (r: Result<()>)
      requires Valid() && Holds(st)
      modifies this, st
      ensures Valid() && Holds(st) && Grew() && table == old(table)
      ensures var s := old(st.items);
              if s == [] then r == Err(StackUnderflow)
              else r == Ok(()) && |st.items| == |s| + 1 && st.items[..|s|] == s &&
                   fresh(st.Top()) && IsCopyOf(st.Top(), s[|s| - 1]) && Unshared(st.Top()) &&
                   forall u :: u in st.Top().Repr ==> fresh(u)
    {
      var top :- st.Peek();
      var c := DeepCopy(top);
      st.Push(c);
      r := Ok(());
    }

    /** swap: the top two change places and nothing else changes. */
    method Swap(st: Stack) returns (r: Result<()>)
      modifies st
      ensures var s := old(st.items); var n := |s|;
              if n < 2 then r == Err(StackUnderflow)
              else r == Ok(()) && st.items == s[..n - 2] + [s[n - 1], s[n - 2]]
    {
      var under :- st.SkipPop();
      st.Push(under);
      r := Ok(());
    }

    /** swap2: the third from the top is spliced out and pushed on top. */
    method Swap2(st: Stack)
      requires |st.items| >= 3
      modifies st
      ensures var s := old(st.items); var n := |s|;
              st.items == s[..n - 3] + [s[n - 2], s[n - 1], s[n - 3]]
    {
      var n := |st.items|;
      var third := st.items[n - 3];
      st.items := st.items[..n - 3] + st.items[n - 2..];
      st.Push(third);
    }

    /** inc: the number on top grows by one, in place, so every alias sees it. */
    method Inc(st: Stack) returns (r: Result<()>)
      requires Valid() && Holds(st)
      modifies values
      ensures Valid()
      ensures st.items == [] ==> r == Err(StackUnderflow)
      ensures st.items != [] ==>
                if old(st.Top().data).Num? then r == Ok(()) && st.Top().data == Num(old(st.Top().data.n) + 1)
                else r == Err(TypeConfused)
      ensures forall v :: v in values && (st.items == [] || v != st.Top()) ==> v.data == old(v.data)
    {
      var top :- st.Peek();
      if !top.data.Num? {
        return Err(TypeConfused);
      }
      top.data := Num(top.data.n + 1);
      r := Ok(());
    }

    /** dec: the number on top shrinks by one, in place. */
    method Dec(st: Stack) returns (r: Result<()>)
      requires Valid() && Holds(st)
      modifies values
      ensures Valid()
      ensures st.items == [] ==> r == Err(StackUnderflow)
      ensures st.items != [] ==>
                if old(st.Top().data).Num? then r == Ok(()) && st.Top().data == Num(old(st.Top().data.n) - 1)
                else r == Err(TypeConfused)
      ensures forall v :: v in values && (st.items == [] || v != st.Top()) ==> v.data == old(v.data)
    {
      var top :- st.Peek();
      if !top.data.Num? {
        return Err(TypeConfused);
      }
      top.data := Num(top.data.n - 1);
      r := Ok(());
    }

    /** not: 1 replaces a falsy top, 0 any other. */
    method Not(st: Stack) returns (r: Result<()>)
      requires Valid() && Holds(st)
      modifies this, st
      ensures Valid() && Holds(st) && Grew() && table == old(table)
      ensures var s := old(st.items); var n := |s|;
              if n == 0 then r == Err(StackUnderflow)
              else r == Ok(()) && Pushed(st, s[..n - 1], Num(if Falsy(s[n - 1].data) then 1 else 0))
    {
      var top :- st.Pop();
      var v := Make(Num(if Falsy(top.data) then 1 else 0));
      st.Push(v);
      r := Ok(());
    }

    /** quote: the top is replaced by a string of its source text. */
    method Quote(st: Stack) returns (r: Result<()>)
      requires Valid() && Holds(st)
      modifies this, st
      ensures Valid() && Holds(st) && Grew() && table == old(table)
      ensures var s := old(st.items); var n := |s|;
              if n == 0 then r == Err(StackUnderflow)
              else if s[n - 1].data.Arr? then r == Err(TypeConfused)
              else r == Ok(()) && Pushed(st, s[..n - 1], Str(Quoted(s[n - 1].data)))
    {
      var top :- st.Peek();
      var text: string;
      match top.data {
        case Blk(t) =>
          text := "{" + t + "}";
        case Str(s) =>
          text := QuoteText(s);
        case Num(n) =>
          text := DecimalText(n);
        case Arr(_) =>
          return Err(TypeConfused);
      }
      var _ := st.Pop();
      var v := Make(Str(text));
      st.Push(v);
      r := Ok(());
    }

    /** tilde: a block or string is run on this stack, a number n becomes -n-1, and an
        array is replaced by its elements in order. */
    method Tilde(st: Stack, fuel: nat) returns (r: Result<()>)
      requires Valid() && Holds(st)
      modifies this, st, values
      ensures Valid() && Holds(st) && Grew()
      ensures var s := old(st.items); var n := |s|;
              if n == 0 then r == Err(StackUnderflow)
              else
                var d := old(s[n - 1].data);
                (d.Num? ==> r == Ok(()) && Pushed(st, s[..n - 1], Num(-d.n - 1))) &&
                (d.Arr? ==> r == Ok(()) && st.items == s[..n - 1] + d.elems)
      ensures old(st.items) != [] && !IsText(old(st.Top().data)) ==>
                table == old(table) && forall v :: v in old(values) ==> v.data == old(v.data)
      decreases fuel, 0
    {
      var top :- st.Pop();
      match top.data {
        case Blk(t) =>
          if fuel == 0 {
            return Err(OutOfFuel);
          }
          var _ :- Interpret(t, st, fuel - 1);
        case Str(s) =>
          if fuel == 0 {
            return Err(OutOfFuel);
          }
          var _ :- Interpret(s, st, fuel - 1);
        case Num(n) =>
          var v := Make(Num(-n - 1));
          st.Push(v);
        case Arr(es) =>
          ElementsHeld(top);
          ghost var below := st.items;
          for k := 0 to |es|
            modifies st
            invariant st.items == below + es[..k]
            invariant Holds(st)
          {
            st.Push(es[k]);
          }
      }
      r := Ok(());
    }

    /** Overwrites the elements of an array with a reordering of them. */
    method Reorder(p: Value, sorted: seq<Value>)
      requires Valid() && p in values && p.data.Arr?
      requires multiset(sorted) == multiset(p.data.elems)
      modifies p
      ensures Valid() && p.data == Arr(sorted)
      ensures forall e :: e in sorted ==> e != p
    {
      assert Wf(p);
      forall e | e in sorted
        ensures e in p.Repr && e.Repr <= p.Repr && p !in e.Repr && e != p
      {
        assert e in multiset(sorted);
        assert Wf(e);
      }
      p.data := Arr(sorted);
    }

    /** `$` on a number m (already popped): a deep copy of the element m places
        below the top goes on top. */
    method DollarNumber(st: Stack, m: int) returns (r: Result<()>)
      requires Valid() && Holds(st)
      modifies this, st
      ensures Valid() && Holds(st) && Grew() && table == old(table)
      ensures var s, h := old(st.items), |old(st.items)|;
              if h < m then r == Err(StackUnderflow)
              else if m < 0 || m == h then r == Err(BadIndex)
              else r == Ok(()) && |st.items| == h + 1 && st.items[..h] == s &&
                   fresh(st.Top()) && IsCopyOf(st.Top(), s[h - 1 - m]) && Unshared(st.Top()) &&
                   forall u :: u in st.Top().Repr ==> fresh(u)
    {
      var h := |st.items|;
      if h < m {
        return Err(StackUnderflow);
      }
      if m < 0 || m == h {
        return Err(BadIndex);
      }
      var c := DeepCopy(st.items[h - 1 - m]);
      st.Push(c);
      r := Ok(());
    }

    /** `$` on a string p (already popped): its characters are sorted in place and
        p goes back on top. */
    method DollarString(st: Stack, p: Value)
      requires Valid() && Holds(st) && p in values && p.data.Str?
      modifies st, p
      ensures Valid() && Holds(st)
      ensures st.items == old(st.items) + [p] && p.data == Str(SortChars(old(p.data.s)))
    {
      p.data := Str(SortChars(p.data.s));
      st.Push(p);
    }

    /** The numbers of array p in ascending order, in place. An array of fewer than
        two elements is left alone, whatever it holds, since sort never calls its
        comparator on it. */
    method SortNumbers(p: Value) returns (r: Result<()>)
      requires Valid() && p in values && p.data.Arr?
      modifies p
      ensures Valid()
      ensures var es := old(p.data.elems);
              if |es| < 2 then r == Ok(()) && p.data == old(p.data)
              else if !(forall e :: e in es ==> e.data.Num?) then r == Err(TypeConfused) && p.data == old(p.data)
              else r == Ok(()) && p.data.Arr? && multiset(p.data.elems) == multiset(es) &&
                   NumericallySorted(p.data.elems)
    {
      var es := p.data.elems;
      if |es| < 2 {
        return Ok(());
      }
      if !(forall e :: e in es ==> e.data.Num?) {
        return Err(TypeConfused);
      }
      SortAllNumbers(p);
      r := Ok(());
    }

    /** Reorders an array of numbers in place by the comparator `a.data - b.data`. */
    method SortAllNumbers(p: Value)
      requires Valid() && p in values && p.data.Arr? && forall e :: e in p.data.elems ==> e.data.Num?
      modifies p
      ensures Valid() && p.data.Arr?
      ensures multiset(p.data.elems) == multiset(old(p.data.elems)) && NumericallySorted(p.data.elems)
    {
      var sorted := NumericOrder(p.data.elems);
      Reorder(p, sorted);
    }

    /** `$` on an array p (already popped): its numbers are put in ascending order in
        place and p goes back on top; fewer than two elements stay as they are. */
    method DollarArray(st: Stack, p: Value) returns (r: Result<()>)
      requires Valid() && Holds(st) && p in values && p.data.Arr?
      modifies st, p
      ensures Valid() && Holds(st)
      ensures var es := old(p.data.elems);
              if |es| < 2 then r == Ok(()) && st.items == old(st.items) + [p] && p.data == old(p.data)
              else if !(forall e :: e in es ==> e.data.Num?) then r == Err(TypeConfused) && st.items == old(st.items)
              else r == Ok(()) && st.items == old(st.items) + [p] && p.data.Arr? &&
                   multiset(p.data.elems) == multiset(es) && NumericallySorted(p.data.elems)
    {
      r := SortNumbers(p);
      if r.Ok? {
        st.Push(p);
      }
    }

    /** The comparator's keys: the number the block leaves on top when run on a
        stack holding one element alone, paired with that element. */
    method BlockKeys(text: string, es: seq<Value>, fuel: nat) returns (r: Result<seq<(int, Value)>>)
      requires Valid() && forall e :: e in es ==> e in values
      modifies this, values
      ensures Valid() && Grew()
      ensures r.Ok? ==> Seconds(r.value) == es
      decreases fuel, 7
    {
      var pairs: seq<(int, Value)> := [];
      for k := 0 to |es|
        invariant Valid() && Grew()
        invariant forall e :: e in es ==> e in values
        invariant |pairs| == k && forall m :: 0 <= m < k ==> pairs[m].1 == es[m]
      {
        var one := new Stack();
        one.Push(es[k]);
        var _ :- Interpret(text, one, fuel);
        var key :- one.Pop();
        if !key.data.Num? {
          return Err(TypeConfused);
        }
        pairs := pairs + [(key.data.n, es[k])];
      }
      return Ok(pairs);
    }

    /** Sorts array arr in place by the keys the block computes for its elements. */
    method SortByBlock(arr: Value, text: string, fuel: nat) returns (r: Result<()>, ghost keyed: seq<(int, Value)>)
      requires Valid() && arr in values && arr.data.Arr?
      modifies this, values
      ensures Valid() && Grew()
      ensures r.Ok? ==> arr.data == Arr(Seconds(keyed)) && SortedByKey(keyed) &&
                        multiset(Seconds(keyed)) == multiset(old(arr.data.elems))
      decreases fuel, 8
    {
      keyed := [];
      var es := arr.data.elems;
      ElementsHeld(arr);
      var pairs :- BlockKeys(text, es, fuel);
      var sorted := SortByKey(pairs);
      keyed := sorted;
      if arr.data != Arr(es) {
        // The block changed the array while its keys were computed.
        return Err(TypeConfused), keyed;
      }
      Reorder(arr, Seconds(sorted));
      r := Ok(());
    }

    /** `$` on a block (already popped): the array on top is reordered by the numbers
        the block leaves when run on each element alone; `keyed` pairs each element
        with its key. An array of fewer than two elements is left alone without
        running the block. The block is not pushed back. */
    method DollarBlock(st: Stack, text: string, fuel: nat) returns (r: Result<()>, ghost keyed: seq<(int, Value)>)
      requires Valid() && Holds(st)
      modifies this, values
      ensures Valid() && Holds(st) && Grew()
      ensures st.items == [] ==> r == Err(StackUnderflow)
      ensures st.items != [] && !old(st.Top().data).Arr? ==> r == Err(NotAnArray)
      ensures st.items != [] && old(st.Top().data).Arr? && |old(st.Top().data.elems)| < 2 ==> r == Ok(()) && Same(st)
      ensures r.Ok? ==> st.items != [] && st.Top().data == Arr(Seconds(keyed)) && SortedByKey(keyed) &&
                        multiset(Seconds(keyed)) == multiset(old(st.Top().data.elems))
      decreases fuel, 0
    {
      keyed := [];
      var arr :- st.Peek();
      if !arr.data.Arr? {
        return Err(NotAnArray), keyed;
      }
      var es := arr.data.elems;
      if |es| < 2 {
        // sort never calls its comparator on fewer than two elements.
        keyed := if es == [] then [] else [(0, es[0])];
        return Ok(()), keyed;
      }
      if fuel == 0 {
        return Err(OutOfFuel), keyed;
      }
      r, keyed := SortByBlock(arr, text, fuel - 1);
    }

    /** dollarSign: pops p and acts on its kind: a number copies from below, a string
        or an array of numbers is sorted, a block sorts the array under it. */
    method DollarSign(st: Stack, fuel: nat) returns (r: Result<()>)
      requires Valid() && Holds(st)
      modifies this, st, values
      ensures Valid() && Holds(st) && Grew()
      ensures old(st.items) == [] ==> r == Err(StackUnderflow)
      decreases fuel, 1
    {
      var p :- st.Pop();
      match p.data {
        case Num(m) =>
          r := DollarNumber(st, m);
        case Str(_) =>
          DollarString(st, p);
          r := Ok(());
        case Arr(_) =>
          r := DollarArray(st, p);
        case Blk(t) =>
          ghost var keyed;
          r, keyed := DollarBlock(st, t, fuel);
      }
    }

    /** whileFunc and untilFunc: pop the body, then the condition; run the condition
        and pop its result; while continues on anything but 0, until only on 0. Each
        round costs one unit of fuel. */
    method Loop(st: Stack, until: bool, fuel: nat) returns (r: Result<()>)
      requires Valid() && Holds(st)
      modifies this, st, values
      ensures Valid() && Holds(st) && Grew()
      ensures |old(st.items)| < 2 ==> r == Err(StackUnderflow)
      decreases fuel, 0
    {
      var body :- st.Pop();
      var cond :- st.Pop();
      var f: nat := fuel;
      while true
        invariant Valid() && Holds(st) && Grew()
        invariant f <= fuel
        decreases f
      {
        if f == 0 {
          return Err(OutOfFuel);
        }
        f := f - 1;
        if !IsText(cond.data) {
          return Err(TypeConfused);
        }
        var _ :- Interpret(TextOf(cond.data), st, f);
        var result :- st.Pop();
        if (result.data == Num(0)) != until {
          return Ok(());
        }
        if !IsText(body.data) {
          return Err(TypeConfused);
        }
        var _ :- Interpret(TextOf(body.data), st, f);
      }
    }

    // -------------------------------------------------------------------------
    // Matchers (golfscript.js:75-164)

    /** checkPushIdentifier: a bound name pushes the very object it is bound to. */
    method CheckPushIdentifier(str: string, i: nat, st: Stack) returns (j: nat)
      requires Valid() && Holds(st) && i <= |str|
      modifies st
      ensures Valid() && Holds(st) && i <= j <= |str|
      ensures var name := NextIdentifier(str, i);
              if name != [] && name in table then j == i + |name| && st.items == old(st.items) + [table[name]]
              else j == i && st.items == old(st.items)
    {
      var name := NextIdentifier(str, i);
      if |name| > 0 && name in table {
        st.Push(table[name]);
        return i + |name|;
      }
      return i;
    }

    /** checkPushNumber: a maximal run of digits pushes its decimal value. */
    method CheckPushNumber(str: string, i: nat, st: Stack) returns (j: nat)
      requires Valid() && Holds(st) && i <= |str|
      modifies this, st
      ensures Valid() && Holds(st) && Grew() && table == old(table) && i <= j <= |str|
      ensures !(i < |str| && IsDigit(str[i])) ==> j == i && st.items == old(st.items) && values == old(values)
      ensures i < |str| && IsDigit(str[i]) ==>
                i < j && AllDigits(str[i..j]) && (j == |str| || !IsDigit(str[j])) &&
                Pushed(st, old(st.items), Num(DigitsValue(str[i..j])))
    {
      j := ScanDigits(str, i);
      if j == i {
        return i;
      }
      assert AllDigits(str[i..j]);
      var v := Make(Num(DigitsValue(str[i..j])));
      st.Push(v);
    }

    /** checkPushBlock: the text up to the balancing '}' becomes a block. */
    method CheckPushBlock(str: string, i: nat, st: Stack) returns (r: Result<nat>)
      requires Valid() && Holds(st) && i <= |str|
      modifies this, st
      ensures Valid() && Holds(st) && Grew() && table == old(table)
      ensures !(i < |str| && str[i] == '{') ==> r == Ok(i) && st.items == old(st.items) && values == old(values)
      ensures r.Ok? ==> i <= r.value <= |str|
      ensures i < |str| && str[i] == '{' ==>
                (r.Err? <==> Unclosed(str, i + 1, '{', '}')) && (r.Err? ==> r.error == Unterminated) &&
                (r.Ok? ==> r.value >= i + 2 && FirstClose(str, i + 1, r.value - 1, '{', '}') &&
                           Balanced(str[i + 1..r.value - 1], '{', '}') &&
                           Pushed(st, old(st.items), Blk(str[i + 1..r.value - 1])))
    {
      if i >= |str| || str[i] != '{' {
        return Ok(i);
      }
      var close := FindClose(str, i + 1, '{', '}');
      if close.None? {
        return Err(Unterminated);
      }
      var v := Make(Blk(str[i + 1..close.value]));
      st.Push(v);
      r := Ok(close.value + 1);
    }

    /** checkPushArray: the text up to the balancing ']' is run on a fresh stack,
        which becomes the elements of a new array. */
    method CheckPushArray(str: string, i: nat, st: Stack, fuel: nat) returns (r: Result<nat>)
      requires Valid() && Holds(st) && i <= |str|
      modifies this, st, values
      ensures Valid() && Holds(st) && Grew()
      ensures !(i < |str| && str[i] == '[') ==> r == Ok(i) && Same(st)
      ensures r.Ok? ==> i <= r.value <= |str|
      ensures i < |str| && str[i] == '[' ==>
                (Unclosed(str, i + 1, '[', ']') ==> r == Err(Unterminated)) &&
                (r.Ok? ==> r.value >= i + 2 && FirstClose(str, i + 1, r.value - 1, '[', ']') &&
                           |st.items| == |old(st.items)| + 1 && st.items[..|old(st.items)|] == old(st.items) &&
                           fresh(st.Top()) && st.Top().data.Arr?)
      decreases fuel, 1
    {
      if i >= |str| || str[i] != '[' {
        return Ok(i);
      }
      var close := FindClose(str, i + 1, '[', ']');
      if close.None? {
        return Err(Unterminated);
      }
      if fuel == 0 {
        return Err(OutOfFuel);
      }
      var inner := new Stack();
      var _ :- Interpret(str[i + 1..close.value], inner, fuel - 1);
      var v := Make(Arr(inner.items));
      st.Push(v);
      r := Ok(close.value + 1);
    }

    /** checkPushString: the raw text up to the first quote not preceded by a
        backslash becomes a string; escapes are kept as written. */
    method CheckPushString(str: string, i: nat, st: Stack) returns (r: Result<nat>)
      requires Valid() && Holds(st) && i <= |str|
      modifies this, st
      ensures Valid() && Holds(st) && Grew() && table == old(table)
      ensures !(i < |str| && str[i] == '"') ==> r == Ok(i) && st.items == old(st.items) && values == old(values)
      ensures r.Ok? ==> i <= r.value <= |str|
      ensures i < |str| && str[i] == '"' ==>
                (r.Err? <==> Unquoted(str, i + 1)) && (r.Err? ==> r.error == Unterminated) &&
                (r.Ok? ==> r.value >= i + 2 && FirstQuote(str, i + 1, r.value - 1) &&
                           Pushed(st, old(st.items), Str(str[i + 1..r.value - 1])))
    {
      if i >= |str| || str[i] != '"' {
        return Ok(i);
      }
      var close := FindQuote(str, i + 1);
      if close.None? {
        return Err(Unterminated);
      }
      var v := Make(Str(str[i + 1..close.value]));
      st.Push(v);
      r := Ok(close.value + 1);
    }

    /** doAssn: `:name` binds name to the top, which stays where it is. */
    method DoAssn(str: string, i: nat, st: Stack) returns (r: Result<nat>)
      requires Valid() && Holds(st) && i <= |str|
      modifies this
      ensures Valid() && values == old(values)
      ensures r.Ok? ==> i <= r.value <= |str|
      ensures !(i < |str| && str[i] == ':') ==> r == Ok(i) && table == old(table)
      ensures i < |str| && str[i] == ':' ==>
                var name := NextIdentifier(str, i + 1);
                if name == [] then r == Err(NoIdentifier)
                else if st.items == [] then r == Err(StackUnderflow)
                else r == Ok(i + 1 + |name|) && table == old(table)[name := st.Top()]
    {
      if i >= |str| || str[i] != ':' {
        return Ok(i);
      }
      var name := NextIdentifier(str, i + 1);
      if |name| == 0 {
        return Err(NoIdentifier);
      }
      var top :- st.Peek();
      table := table[name := top];
      r := Ok(i + 1 + |name|);
    }

    /** doKeyword: `while` or `until` at i runs the loop, once minArgs has seen two
        values on the stack. */
    method DoKeyword(str: string, i: nat, word: string, st: Stack, fuel: nat) returns (r: Result<nat>)
      requires Valid() && Holds(st) && i <= |str|
      requires word == "while" || word == "until"
      modifies this, st, values
      ensures Valid() && Holds(st) && Grew()
      ensures !IsPrefixAt(str, i, word) ==> r == Ok(i) && Same(st)
      ensures IsPrefixAt(str, i, word) && |old(st.items)| < 2 ==> r == Err(StackUnderflow) && Same(st)
      ensures IsPrefixAt(str, i, word) && r.Ok? ==> r.value == i + |word| <= |str|
      decreases fuel, 1
    {
      var found := Lookahead(str, i, word);
      if !found {
        return Ok(i);
      }
      if |st.items| < 2 {
        return Err(StackUnderflow);
      }
      var _ :- Loop(st, word == "until", fuel);
      r := Ok(i + |word|);
    }

    /** `+ - * /` once minArgs has seen two values. */
    method ApplyArithmetic(c: char, st: Stack) returns (r: Result<()>)
      requires Valid() && Holds(st) && c in "+-*/" && |st.items| >= 2
      modifies this, st
      ensures Valid() && Holds(st) && Grew() && table == old(table)
      ensures Effect(st, old(st.items), c, r)
    {
      if c == '+' {
        r := Add(st);
      } else if c == '-' {
        r := Sub(st);
      } else if c == '*' {
        r := Mult(st);
      } else {
        r := Div(st);
      }
    }

    /** The operators that only rearrange the stack or replace its top: `\\ @ ; . !`,
        and a bound space, which falls through to `!`. */
    method ApplyShuffle(c: char, st: Stack) returns (r: Result<()>)
      requires Valid() && Holds(st) && c in "\\@;.! " && |st.items| >= Arity(c)
      modifies this, st
      ensures Valid() && Holds(st) && Grew() && table == old(table)
      ensures Effect(st, old(st.items), c, r)
    {
      if c == '\\' {
        r := Swap(st);
      } else if c == '@' {
        Swap2(st);
        r := Ok(());
      } else if c == ';' {
        var _ := st.Pop();
        r := Ok(());
      } else if c == '.' {
        r := Dup(st);
      } else {
        r := Not(st);
      }
    }

    /** The operators that change a value in place or run code: `` ` ) ( ~ $ ``. */
    method ApplyValueOp(c: char, st: Stack, fuel: nat) returns (r: Result<()>)
      requires Valid() && Holds(st) && c in "`)(~$" && |st.items| >= 1
      modifies this, st, values
      ensures Valid() && Holds(st) && Grew()
      ensures Effect(st, old(st.items), c, r)
      ensures !RunsCode(c, old(st.Top().data)) ==>
                table == old(table) &&
                forall v :: v in old(values) && !(c in ")(" && v == old(st.Top())) ==> v.data == old(v.data)
      decreases fuel, 2
    {
      if c == ')' {
        r := Inc(st);
      } else if c == '(' {
        r := Dec(st);
      } else if c == '`' {
        r := Quote(st);
      } else if c == '~' {
        r := Tilde(st, fuel);
      } else {
        r := DollarSign(st, fuel);
      }
    }

    /** doAction: one operator character, checked by minArgs first. A space is a
        separator unless " " is bound, and then it falls through to `!`. Any other
        character is left for the caller. */
    method DoAction(str: string, i: nat, st: Stack, fuel: nat) returns (r: Result<nat>)
      requires Valid() && Holds(st) && i <= |str|
      modifies this, st, values
      ensures Valid() && Holds(st) && Grew()
      ensures i == |str| || !(IsOperator(str[i]) || str[i] == ' ') ==> r == Ok(i) && Same(st)
      ensures i < |str| && str[i] == ' ' && " " !in old(table) ==> r == Ok(i + 1) && Same(st)
      ensures (i < |str| && (IsOperator(str[i]) || (str[i] == ' ' && " " in old(table))) &&
               |old(st.items)| < Arity(str[i])) ==> r == Err(StackUnderflow) && Same(st)
      ensures i < |str| && (IsOperator(str[i]) || str[i] == ' ') && r.Ok? ==> r.value == i + 1
      ensures i < |str| && (IsOperator(str[i]) || (str[i] == ' ' && " " in old(table))) &&
              |old(st.items)| >= Arity(str[i]) ==>
                Effect(st, old(st.items), str[i], if r.Ok? then Ok(()) else Err(r.error))
      ensures i < |str| && (IsOperator(str[i]) || (str[i] == ' ' && " " in old(table))) &&
              |old(st.items)| >= Arity(str[i]) && !RunsCode(str[i], old(st.Top().data)) ==>
                table == old(table) &&
                forall v :: v in old(values) && !(str[i] in ")(" && v == old(st.Top())) ==> v.data == old(v.data)
      decreases fuel, 3
    {
      if i >= |str| {
        return Ok(i);
      }
      var c := str[i];
      if c == ' ' && " " !in table {
        return Ok(i + 1);
      }
      if !IsOperator(c) && c != ' ' {
        return Ok(i);
      }
      if |st.items| < Arity(c) {
        return Err(StackUnderflow);
      }
      var res: Result<()>;
      if c in "+-*/" {
        res := ApplyArithmetic(c, st);
      } else if c in "\\@;.! " {
        res := ApplyShuffle(c, st);
      } else {
        res := ApplyValueOp(c, st, fuel);
      }
      if res.Err? {
        return Err(res.error);
      }
      r := Ok(i + 1);
    }

    // -------------------------------------------------------------------------
    // The scan/dispatch loop (golfscript.js:36-63)

    /** The first six matchers of one pass: names, comments and literals. */
    method ScanLiterals(str: string, i: nat, st: Stack, fuel: nat) returns (r: Result<nat>)
      requires Valid() && Holds(st) && i <= |str|
      modifies this, st, values
      ensures Valid() && Holds(st) && Grew()
      ensures r.Ok? ==> i <= r.value <= |str|
      ensures r == Ok(i) ==> Same(st)
      decreases fuel, 4
    {
      var j := CheckPushIdentifier(str, i, st);
      j := CheckComment(str, j);
      j := CheckPushNumber(str, j, st);
      j :- CheckPushBlock(str, j, st);
      j :- CheckPushArray(str, j, st, fuel);
      j :- CheckPushString(str, j, st);
      r := Ok(j);
    }

    /** The last four matchers of one pass: assignment, the two loops, operators. */
    method ScanActions(str: string, i: nat, st: Stack, fuel: nat) returns (r: Result<nat>)
      requires Valid() && Holds(st) && i <= |str|
      modifies this, st, values
      ensures Valid() && Holds(st) && Grew()
      ensures r.Ok? ==> i <= r.value <= |str|
      ensures r == Ok(i) ==> Same(st)
      decreases fuel, 4
    {
      var j :- DoAssn(str, i, st);
      j :- DoKeyword(str, j, "while", st, fuel);
      j :- DoKeyword(str, j, "until", st, fuel);
      j :- DoAction(str, j, st, fuel);
      r := Ok(j);
    }

    /** One pass of the matcher chain from i: the new cursor, which equals i exactly
        when no matcher accepted anything, and then nothing has changed. */
    method Step(str: string, i: nat, st: Stack, fuel: nat) returns (r: Result<nat>)
      requires Valid() && Holds(st) && i <= |str|
      modifies this, st, values
      ensures Valid() && Holds(st) && Grew()
      ensures r.Ok? ==> i <= r.value <= |str|
      ensures r == Ok(i) ==> Same(st)
      decreases fuel, 5
    {
      var j :- ScanLiterals(str, i, st, fuel);
      r := ScanActions(str, j, st, fuel);
    }

    /** _interpret: runs the matcher chain until the cursor reaches the end. A pass
        that accepts nothing would repeat forever in the source; here it is Stuck. */
    method Interpret(str: string, st: Stack, fuel: nat) returns (r: Result<()>)
      requires Valid() && Holds(st)
      modifies this, st, values
      ensures Valid() && Holds(st) && Grew()
      ensures str == [] ==> r == Ok(()) && Same(st)
      decreases fuel, 6
    {
      var i := 0;
      while i < |str|
        invariant i <= |str|
        invariant Valid() && Holds(st) && Grew()
        invariant i == 0 ==> Same(st)
        decreases |str| - i
      {
        var j :- Step(str, i, st, fuel);
        if j == i {
          return Err(Stuck);
        }
        i := j;
      }
      r := Ok(());
    }
  }

  /** interpret without its console.log: runs a program on an empty stack with an
      empty symbol table and renders the stack that is left, which is returned too. */
  method Run(src: string, fuel: nat) returns (r: Result<string>, st: Stack)
    ensures src == [] ==> r == Ok("") && st.items == []
    ensures r.Ok? ==> Trees(st.items) && r.value == PrettyPrint(st.items)
  {
    var interp := new Interp();
    st := new Stack();
    var res := interp.Interpret(src, st, fuel);
    if res.Err? {
      return Err(res.error), st;
    }
    forall k | 0 <= k < |st.items|
      ensures Tree(st.items[k])
    {
      interp.ValueTree(st.items[k]);
    }
    assert src == [] ==> PrettyPrint(st.items) == "";
    r := Ok(PrettyPrint(st.items));
  }
}
