/**
 * The `ORDER BY` of a repository query: an insertion sort on a two-level integer key
 * (ascending, first on `major`, then on `minor`).
 */
module Sorting {

  datatype Key = Key(major: int, minor: int)

  /** Lexicographic order on keys: a total preorder. */
  predicate KeyLe(a: Key, b: Key) {
    a.major < b.major || (a.major == b.major && a.minor <= b.minor)
  }

  predicate SortedBy<T>(s: seq<T>, key: T -> Key) {
    forall i, j :: 0 <= i < j < |s| ==> KeyLe(key(s[i]), key(s[j]))
  }

  /** An element no greater than the head of a sorted sequence can be put in front of it. */
  lemma ConsSorted<T>(y: T, rest: seq<T>, key: T -> Key)
    requires SortedBy(rest, key)
    requires rest != [] ==> KeyLe(key(y), key(rest[0]))
    ensures SortedBy([y] + rest, key)
  {
    var r := [y] + rest;
    forall i, j | 0 <= i < j < |r| ensures KeyLe(key(r[i]), key(r[j])) {
      if i == 0 {
        assert r[j] == rest[j - 1];
        if j > 1 {
          assert KeyLe(key(rest[0]), key(rest[j - 1]));
        }
      } else {
        assert r[i] == rest[i - 1] && r[j] == rest[j - 1];
      }
    }
  }

  /** When `x` goes after the head, the head stays below whatever the tail now starts with. */
  lemma HeadStaysBelow<T>(x: T, s: seq<T>, rest: seq<T>, key: T -> Key)
    requires SortedBy(s, key) && s != [] && !KeyLe(key(x), key(s[0]))
    requires rest != [] && (rest[0] == x || (|s| > 1 && rest[0] == s[1]))
    ensures KeyLe(key(s[0]), key(rest[0]))
  {
  }

  /** Inserts `x` before the first element whose key is not below it. */
  function Insert<T>(x: T, s: seq<T>, key: T -> Key): (r: seq<T>)
    requires SortedBy(s, key)
    ensures SortedBy(r, key)
    ensures multiset(r) == multiset(s) + multiset{x}
    ensures |r| == |s| + 1
    ensures r[0] == x || (s != [] && r[0] == s[0])
  {
    if s == [] || KeyLe(key(x), key(s[0])) then
      ConsSorted(x, s, key);
      [x] + s
    else
      var rest := Insert(x, s[1..], key);
      HeadStaysBelow(x, s, rest, key);
      ConsSorted(s[0], rest, key);
      assert s == [s[0]] + s[1..];
      [s[0]] + rest
  }

  /** The elements of `s`, ordered by `key`. */
  function SortBy<T>(s: seq<T>, key: T -> Key): (r: seq<T>)
    ensures SortedBy(r, key)
    ensures multiset(r) == multiset(s)
    ensures |r| == |s|
  {
    if s == [] then []
    else
      assert s == [s[0]] + s[1..];
      Insert(s[0], SortBy(s[1..], key), key)
  }
}
