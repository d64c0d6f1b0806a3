/**
  The two `java.util.List` operations the section code uses on its list of
  section keys: `indexOf`, which searches from the front and answers -1
  when the element is absent, and `ArrayList.add(index, element)`, which
  shifts the tail one place right and throws when the index lies outside
  0..size.
 */
module JavaUtil {
  import opened JavaLang

  /** The index `List.indexOf` answers: the first position holding x,
      or -1 when x does not occur. */
  function FirstIndex<T(==)>(list: seq<T>, x: T): (i: int)
    ensures -1 <= i < |list|
    ensures i == -1 <==> x !in list
    ensures 0 <= i ==> list[i] == x && x !in list[..i]
  {
    if list == [] then -1
    else if list[0] == x then 0
    else
      var j := FirstIndex(list[1..], x);
      assert list[1..][..if j < 0 then 0 else j] == list[1..if j < 0 then 1 else j + 1];
      if j == -1 then -1 else j + 1
  }

  /** `List.indexOf(x)`: a front-to-back scan with `equals`. */
  method IndexOf<T(==)>(list: seq<T>, x: T) returns (index: int)
    ensures index == FirstIndex(list, x)
  {
    var i := 0;
    while i < |list|
      invariant 0 <= i <= |list|
      invariant x !in list[..i]
    {
      if list[i] == x {
        FirstIndexIsFirst(list, x, i);
        return i;
      }
      assert list[..i + 1] == list[..i] + [list[i]];
      i := i + 1;
    }
    assert list[..i] == list;
    index := -1;
  }

  /** A position holding x with no x before it is the one `FirstIndex` names. */
  lemma FirstIndexIsFirst<T>(list: seq<T>, x: T, i: int)
    requires 0 <= i < |list| && list[i] == x && x !in list[..i]
    ensures FirstIndex(list, x) == i
  {
  }

  /** `java.util.ArrayList`: a growable list whose contents are `elements`. */
  class ArrayList<T> {
    var elements: seq<T>

    /** `new ArrayList<>(c)`: a new list holding a copy of c's elements. */
    constructor Copy(c: seq<T>)
      ensures elements == c
    {
      elements := c;
    }

    /** `add(index, element)`: inserts element at index, moving the element
        there and all after it one place right; throws
        IndexOutOfBoundsException, changing nothing, unless 0 <= index <= size. */
    method Add(index: int, element: T) returns (outcome: Outcome)
      modifies this
      ensures outcome.Pass? <==> 0 <= index <= |old(elements)|
      ensures outcome.Pass? ==>
        elements == old(elements)[..index] + [element] + old(elements)[index..]
      ensures outcome.Fail? ==>
        elements == old(elements) && outcome.error == IndexOutOfBounds(index, |elements|)
    {
      if index < 0 || index > |elements| {
        return Fail(IndexOutOfBounds(index, |elements|));
      }
      elements := elements[..index] + [element] + elements[index..];
      outcome := Pass;
    }
  }
}
