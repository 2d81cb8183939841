/** PHP values the preloader handles, and the truthiness rules of PHP's `(bool)` cast. */
module Php {

  datatype Option<+T> = None | Some(value: T)

  /** An outcome that is either a value or the exception the PHP code throws. */
  datatype Result<+T, +E> = Success(value: T) | Failure(error: E)

  /** The scalar values a caller can hand to `when()` or a callable can return.
      Floats and arrays are not part of this model. */
  datatype Value = Null | Bool(b: bool) | Int(i: int) | Str(s: string)

  /** PHP's truthiness of a string: only "" and "0" are false. */
  predicate StringTruthy(s: string)
  {
    s != "" && s != "0"
  }

  /** `(bool) $v`: null, false, 0, "" and "0" are false, everything else is true. */
  predicate Truthy(v: Value)
  {
    match v
    case Null => false
    case Bool(b) => b
    case Int(i) => i != 0
    case Str(s) => StringTruthy(s)
  }

  /** Truthiness of a nullable string property (`?string`). */
  predicate OptionTruthy(o: Option<string>)
  {
    o.Some? && StringTruthy(o.value)
  }

  /** The set of the elements of a list. */
  function Elems<T>(s: seq<T>): set<T>
  {
    set x | x in s
  }

  /** No value occurs twice in the list. */
  predicate NoDuplicates<T(==)>(s: seq<T>)
  {
    forall i, j :: 0 <= i < j < |s| ==> s[i] != s[j]
  }

  /** `array_search($x, $s)` on a list: the position of the first occurrence of `x`. */
  function FirstIndex<T(==)>(s: seq<T>, x: T): (i: nat)
    requires x in s
    ensures i < |s| && s[i] == x && x !in s[..i]
  {
    if s[0] == x then 0
    else
      var k := FirstIndex(s[1..], x);
      assert s[..k + 1] == [s[0]] + s[1..][..k];
      k + 1
  }

  /** The first occurrence is the one position that holds `x` with no `x` before it. */
  lemma FirstIndexUnique<T>(s: seq<T>, x: T, i: nat)
    requires i < |s| && s[i] == x && x !in s[..i]
    ensures FirstIndex(s, x) == i
  {
    var k := FirstIndex(s, x);
  }

  /** A value of `a` is found in `a + b` where it is found in `a`. */
  lemma FirstIndexAppendLeft<T>(a: seq<T>, b: seq<T>, x: T)
    requires x in a
    ensures FirstIndex(a + b, x) == FirstIndex(a, x)
  {
    var i := FirstIndex(a, x);
    assert (a + b)[..i] == a[..i];
    FirstIndexUnique(a + b, x, i);
  }

  /** A value only in `b` is found in `a + b` after all of `a`. */
  lemma FirstIndexAppendRight<T>(a: seq<T>, b: seq<T>, x: T)
    requires x !in a && x in b
    ensures FirstIndex(a + b, x) == |a| + FirstIndex(b, x)
  {
    var i := FirstIndex(b, x);
    assert (a + b)[..|a| + i] == a + b[..i];
    FirstIndexUnique(a + b, x, |a| + i);
  }
}
