/** The parser stack of the Java skeleton: two arrays that are doubled when they are full. Popped
    values are overwritten, so that nothing above the top is kept alive. */
module JavaStack {
  import opened Collections

  /** The size of a new stack. */
  const INITIAL := 16

  class YYStack<V> {
    var stateStack: array<int>
    var valueStack: array<V>
    var size: nat
    var height: int
    const nil: V

    ghost predicate Valid()
      reads this, stateStack, valueStack
    {
      && INITIAL <= size == stateStack.Length == valueStack.Length && -1 <= height < size
      && (stateStack as object) != (valueStack as object)
      && forall i :: height < i < size ==> valueStack[i] == nil
    }

    ghost function Objects(): set<object>
      reads this
    {
      {this, stateStack, valueStack}
    }

    ghost function States(): (s: seq<int>)
      requires Valid()
      reads this, stateStack, valueStack
      ensures |s| == height + 1
    {
      stateStack[..height + 1]
    }

    ghost function Values(): (s: seq<V>)
      requires Valid()
      reads this, stateStack, valueStack
      ensures |s| == height + 1
    {
      valueStack[..height + 1]
    }

    constructor (nil: V)
      ensures Valid() && States() == [] && Values() == [] && this.nil == nil && fresh(Objects())
    {
      this.nil := nil;
      stateStack, valueStack := new int[INITIAL](_ => 0), new V[INITIAL](_ => nil);
      size, height := INITIAL, -1;
    }

    method Push(state: int, value: V)
      requires Valid()
      modifies this, stateStack, valueStack
      ensures Valid() && States() == old(States()) + [state] && Values() == old(Values()) + [value]
      ensures fresh(Objects() - old(Objects()))
    {
      if size == height + 1 {
        Double();
      }
      height := height + 1;
      stateStack[height] := state;
      valueStack[height] := value;
    }

    /** Full arrays are copied to arrays of twice the size. */
    method Double()
      requires Valid() && size == height + 1
      modifies this`stateStack, this`valueStack, this`size
      ensures Valid() && size == 2 * old(size) && States() == old(States()) && Values() == old(Values())
      ensures fresh(stateStack) && fresh(valueStack)
    {
      var states := Relocate(stateStack, size, size * 2, 0);
      var values := Relocate(valueStack, size, size * 2, nil);
      forall i | size <= i < size * 2 {
        values[i] := nil;
      }
      stateStack, valueStack, size := states, values, size * 2;
    }

    method Pop(num: nat)
      requires Valid() && num <= height + 1
      modifies this`height, valueStack
      ensures Valid() && height == old(height) - num
      ensures States() == old(States())[..height + 1] && Values() == old(Values())[..height + 1]
    {
      forall i | height - num + 1 <= i < height + 1 {
        valueStack[i] := nil;
      }
      height := height - num;
    }

    method StateAt(i: nat) returns (state: int)
      requires Valid() && i <= height
      ensures state == States()[height - i]
    {
      state := stateStack[height - i];
    }

    /** The n values at the top. */
    method TopValues(n: nat) returns (values: seq<V>)
      requires Valid() && n <= height + 1
      ensures values == Values()[height + 1 - n..]
    {
      values := valueStack[height + 1 - n..height + 1];
    }
  }
}
