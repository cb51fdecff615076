/** The operations of std::list that the listener and address lists use. */
module Lists {

  /** `remove`: every element equal to `x` goes, the others keep their order. */
  function Without<T(==)>(list: seq<T>, x: T): seq<T>
    decreases |list|
  {
    if list == [] then []
    else if list[0] == x then Without(list[1..], x)
    else [list[0]] + Without(list[1..], x)
  }

  lemma {:induction false} WithoutHas<T>(list: seq<T>, x: T, y: T)
    ensures y in Without(list, x) <==> y in list && y != x
    decreases |list|
  {
    if list != [] {
      WithoutHas(list[1..], x, y);
      assert list == [list[0]] + list[1..];
    }
  }

  lemma {:induction false} WithoutAppend<T>(list: seq<T>, x: T, y: T)
    ensures Without(list + [y], x) == Without(list, x) + if y == x then [] else [y]
    decreases |list|
  {
    if list == [] {
      assert (list + [y])[1..] == [];
    } else {
      WithoutAppend(list[1..], x, y);
      assert (list + [y])[1..] == list[1..] + [y];
    }
  }

  method RemoveAll<T(==)>(list: seq<T>, x: T) returns (kept: seq<T>)
    ensures kept == Without(list, x)
  {
    kept := [];
    var i := 0;
    while i < |list|
      invariant 0 <= i <= |list|
      invariant kept == Without(list[..i], x)
    {
      WithoutAppend(list[..i], x, list[i]);
      assert list[..i + 1] == list[..i] + [list[i]];
      if list[i] != x {
        kept := kept + [list[i]];
      }
      i := i + 1;
    }
    assert list[..i] == list;
  }

  /** How often an element is registered. */
  function Count<T(==)>(list: seq<T>, x: T): nat
    decreases |list|
  {
    if list == [] then 0 else (if list[0] == x then 1 else 0) + Count(list[1..], x)
  }

  lemma {:induction false} CountAppend<T>(list: seq<T>, y: T, x: T)
    ensures Count(list + [y], x) == Count(list, x) + if y == x then 1 else 0
    decreases |list|
  {
    if list == [] {
      assert (list + [y])[1..] == [];
    } else {
      CountAppend(list[1..], y, x);
      assert (list + [y])[1..] == list[1..] + [y];
    }
  }

  /** A removed element is not registered at all; the others as often as before. */
  lemma {:induction false} CountWithout<T>(list: seq<T>, x: T, y: T)
    ensures Count(Without(list, x), y) == if y == x then 0 else Count(list, y)
    decreases |list|
  {
    if list != [] {
      CountWithout(list[1..], x, y);
      assert ([list[0]] + Without(list[1..], x))[1..] == Without(list[1..], x);
    }
  }
}
