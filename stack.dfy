/** The stack of golfscript.js: one JavaScript array, mutated in place by pop, peek,
    push and skipPop (golfscript.js:15-34) and shared by reference with every nested
    run of the dispatch loop. Its top is the last element. */
module Stacks {
  import opened Outcomes
  import opened Values

  class Stack {
    var items: seq<Value>

    constructor ()
      ensures items == []
    {
      items := [];
    }

    /** The last element. */
    function Top(): Value
      requires items != []
      reads this
    {
      items[|items| - 1]
    }

    method Push(v: Value)
      modifies this
      ensures items == old(items) + [v]
    {
      items := items + [v];
    }

    /** Fails on an empty stack; otherwise removes and returns the last element. */
    method Pop() returns (r: Result<Value>)
      modifies this
      ensures old(items) == [] ==> r == Err(StackUnderflow) && items == old(items)
      ensures old(items) != [] ==>
                r == Ok(old(items)[|old(items)| - 1]) && items == old(items)[..|old(items)| - 1]
    {
      if items == [] {
        return Err(StackUnderflow);
      }
      r := Ok(items[|items| - 1]);
      items := items[..|items| - 1];
    }

    /** Fails on an empty stack; otherwise returns the last element and changes nothing. */
    method Peek() returns (r: Result<Value>)
      ensures if items == [] then r == Err(StackUnderflow) else r == Ok(items[|items| - 1])
    {
      if items == [] {
        return Err(StackUnderflow);
      }
      return Ok(items[|items| - 1]);
    }

    /** Removes and returns the element under the top; the top stays where it was. */
    method SkipPop() returns (r: Result<Value>)
      modifies this
      ensures var s, n := old(items), |old(items)|;
              if n < 2 then r == Err(StackUnderflow) && items == []
              else r == Ok(s[n - 2]) && items == s[..n - 2] + [s[n - 1]]
    {
      var top :- Pop();
      var under :- Pop();
      Push(top);
      return Ok(under);
    }
  }
}
