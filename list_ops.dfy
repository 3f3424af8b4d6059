/**
 * The array operations the list slices and the users screen rely on:
 * `filter`, `findIndex` by id, and the "replace the first match" update.
 * Records are identified through a key function (their `id`).
 */
module ListOps {

  /** `a` is `b` with some elements left out, the rest in their original order. */
  predicate IsSubsequence<T(==)>(a: seq<T>, b: seq<T>)
    decreases |b|
  {
    if a == [] then true
    else if b == [] then false
    else if a[0] == b[0] then IsSubsequence(a[1..], b[1..])
    else IsSubsequence(a, b[1..])
  }

  /** `Array.prototype.filter`. */
  function Filter<T(==,!new)>(s: seq<T>, keep: T -> bool): (r: seq<T>)
    ensures |r| <= |s|
    ensures forall i | 0 <= i < |r| :: keep(r[i])
    ensures forall x :: multiset(r)[x] == if keep(x) then multiset(s)[x] else 0
    ensures IsSubsequence(r, s)
  {
    if s == [] then []
    else
      assert s == [s[0]] + s[1..];
      var rest := Filter(s[1..], keep);
      if keep(s[0]) then [s[0]] + rest else
        SubsequenceOfTail(rest, s);
        rest
  }

  /** A subsequence of `b`'s tail is a subsequence of `b`. */
  lemma {:induction false} SubsequenceOfTail<T>(a: seq<T>, b: seq<T>)
    requires b != [] && IsSubsequence(a, b[1..])
    ensures IsSubsequence(a, b)
    decreases |b|, 0
  {
    if a != [] && a[0] == b[0] {
      TailOfSubsequence(a, b[1..]);
    }
  }

  /** Dropping the first element of a subsequence keeps it a subsequence. */
  lemma {:induction false} TailOfSubsequence<T>(a: seq<T>, c: seq<T>)
    requires a != [] && IsSubsequence(a, c)
    ensures IsSubsequence(a[1..], c)
    decreases |c|, 1
  {
    if a[0] == c[0] {
      if a[1..] != [] {
        SubsequenceOfTail(a[1..], c);
      }
    } else {
      TailOfSubsequence(a, c[1..]);
      if a[1..] != [] {
        SubsequenceOfTail(a[1..], c);
      }
    }
  }

  /** Filtering with a predicate that holds everywhere keeps every element. */
  lemma {:induction false} FilterKeepsAll<T(!new)>(s: seq<T>, keep: T -> bool)
    requires forall i | 0 <= i < |s| :: keep(s[i])
    ensures Filter(s, keep) == s
  {
    if s != [] {
      FilterKeepsAll(s[1..], keep);
    }
  }

  /** `findIndex` on the key: the first index whose key is `id`, or -1. */
  function IndexOfId<T>(s: seq<T>, key: T -> string, id: string): (r: int)
    ensures -1 <= r < |s|
    ensures r == -1 <==> forall j | 0 <= j < |s| :: key(s[j]) != id
    ensures 0 <= r ==> key(s[r]) == id && forall j | 0 <= j < r :: key(s[j]) != id
  {
    if s == [] then -1
    else if key(s[0]) == id then 0
    else
      var k := IndexOfId(s[1..], key, id);
      if k == -1 then -1 else k + 1
  }

  /**
   * The update reducers' effect: the first element with `x`'s key becomes
   * `x`; without such an element nothing changes.
   */
  function ReplaceFirstById<T>(s: seq<T>, key: T -> string, x: T): (r: seq<T>)
    ensures |r| == |s|
    ensures (forall j | 0 <= j < |s| :: key(s[j]) != key(x)) ==> r == s
    ensures forall j | 0 <= j < |s| ::
      r[j] == if key(s[j]) == key(x) && (forall k | 0 <= k < j :: key(s[k]) != key(x)) then x else s[j]
  {
    var i := IndexOfId(s, key, key(x));
    if i == -1 then s else s[i := x]
  }

  /** The delete reducers' effect: `filter` on the key differing from `id`. */
  function RemoveById<T(==,!new)>(s: seq<T>, key: T -> string, id: string): (r: seq<T>)
    ensures forall i | 0 <= i < |r| :: key(r[i]) != id
    ensures forall x :: multiset(r)[x] == if key(x) != id then multiset(s)[x] else 0
    ensures IsSubsequence(r, s)
    ensures (forall j | 0 <= j < |s| :: key(s[j]) != id) ==> r == s
  {
    var keep := (x: T) => key(x) != id;
    var r := Filter(s, keep);
    if forall j | 0 <= j < |s| :: key(s[j]) != id then
      FilterKeepsAll(s, keep);
      r
    else r
  }
}
