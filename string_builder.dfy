/** The part of .NET's System.Text.StringBuilder that the debug tools use:
    a growable character buffer that is appended to, inserted into and
    cleared in place. The capacity given to the constructor is only a hint
    and is not kept; a negative capacity is rejected by the caller's model. */
module Text {

  /** `count` copies of `value`, one after the other. */
  function Repeat(value: string, count: nat): (r: string)
    ensures |r| == count * |value|
  {
    if count == 0 then "" else Repeat(value, count - 1) + value
  }

  lemma {:induction false} RepeatChar(c: char, count: nat)
    ensures |Repeat([c], count)| == count
    ensures forall i :: 0 <= i < count ==> Repeat([c], count)[i] == c
  {
    if count > 0 {
      RepeatChar(c, count - 1);
    }
  }

  class StringBuilder {
    var chars: seq<char>

    /** `new StringBuilder()` and `new StringBuilder(capacity)`. */
    constructor (capacity: nat)
      ensures chars == []
    {
      chars := [];
    }

    function ToString(): (s: string)
      reads this
    {
      chars
    }

    method Append(s: string)
      modifies this
      ensures chars == old(chars) + s
    {
      chars := chars + s;
    }

    /** `Insert(index, value, count)`: `count` copies of `value` placed at
        `index`. .NET throws for an index outside the buffer or a negative
        count; no caller in the model passes either. */
    method Insert(index: nat, value: string, count: nat)
      requires index <= |chars|
      modifies this
      ensures chars == old(chars)[..index] + Repeat(value, count) + old(chars)[index..]
    {
      var copies := "";
      var i := 0;
      while i < count
        invariant 0 <= i <= count
        invariant copies == Repeat(value, i)
      {
        copies := copies + value;
        i := i + 1;
      }
      chars := chars[..index] + copies + chars[index..];
    }

    method Clear()
      modifies this
      ensures chars == []
    {
      chars := [];
    }
  }
}
