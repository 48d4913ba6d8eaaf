/** The array operations the reducers use, over sequences of records keyed by an id. */
module Lists {

  /** `findIndex(x => key(x) === k)`: the first position whose key is `k`, or -1. */
  function IndexOf<T>(s: seq<T>, key: T -> int, k: int): (r: int)
    ensures -1 <= r < |s|
    ensures r >= 0 ==> key(s[r]) == k && forall j :: 0 <= j < r ==> key(s[j]) != k
    ensures r == -1 <==> forall j :: 0 <= j < |s| ==> key(s[j]) != k
    decreases |s|
  {
    if |s| == 0 then -1
    else if key(s[0]) == k then 0
    else
      var t := IndexOf(s[1..], key, k);
      if t == -1 then -1 else t + 1
  }

  /** `s[findIndex(y => key(y) === key(x))] = x` when some element matches. */
  function ReplaceFirst<T>(s: seq<T>, key: T -> int, x: T): (r: seq<T>)
    ensures |r| == |s|
    ensures IndexOf(s, key, key(x)) == -1 ==> r == s
    ensures var i := IndexOf(s, key, key(x));
      i >= 0 ==> r[i] == x && forall j :: 0 <= j < |s| && j != i ==> r[j] == s[j]
  {
    var i := IndexOf(s, key, key(x));
    if i == -1 then s else s[i := x]
  }

  /** `filter(x => key(x) !== k)`. */
  function RemoveAll<T>(s: seq<T>, key: T -> int, k: int): (r: seq<T>)
    ensures |r| <= |s|
    ensures forall j :: 0 <= j < |r| ==> key(r[j]) != k
    ensures forall j :: 0 <= j < |r| ==> r[j] in s
    ensures forall j :: 0 <= j < |s| && key(s[j]) != k ==> s[j] in r
    ensures (forall j :: 0 <= j < |s| ==> key(s[j]) != k) ==> r == s
    decreases |s|
  {
    if |s| == 0 then []
    else if key(s[0]) == k then RemoveAll(s[1..], key, k)
    else [s[0]] + RemoveAll(s[1..], key, k)
  }

  /** The filter keeps the relative order: it distributes over concatenation. */
  lemma {:induction false} RemoveAllAppend<T>(a: seq<T>, b: seq<T>, key: T -> int, k: int)
    ensures RemoveAll(a + b, key, k) == RemoveAll(a, key, k) + RemoveAll(b, key, k)
    decreases |a|
  {
    if |a| == 0 {
      assert a + b == b;
    } else {
      assert (a + b)[1..] == a[1..] + b;
      RemoveAllAppend(a[1..], b, key, k);
    }
  }
}
