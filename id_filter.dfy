/**
 * The delete-by-id filter that the export and quiz list pages apply after a
 * successful delete: `list.filter(item => item._id !== id)`.
 */
module IdFilter {

  /** The items whose id differs from `id`, in their original order. */
  function Without<T>(items: seq<T>, idOf: T -> string, id: string): (r: seq<T>)
    ensures |r| <= |items|
    ensures forall i :: 0 <= i < |r| ==> r[i] in items && idOf(r[i]) != id
    ensures forall i :: 0 <= i < |items| && idOf(items[i]) != id ==> items[i] in r
  {
    if items == [] then []
    else (if idOf(items[0]) != id then [items[0]] else []) + Without(items[1..], idOf, id)
  }

  /** Filtering a concatenation filters each part and keeps them in order, so
      the kept items appear in the order they had. */
  lemma {:induction false} WithoutAppend<T>(a: seq<T>, b: seq<T>, idOf: T -> string, id: string)
    ensures Without(a + b, idOf, id) == Without(a, idOf, id) + Without(b, idOf, id)
  {
    if a == [] {
      assert a + b == b;
    } else {
      assert (a + b)[1..] == a[1..] + b;
      WithoutAppend(a[1..], b, idOf, id);
    }
  }

  /** A list holding no item with that id is left as it is. */
  lemma {:induction false} WithoutAbsent<T>(items: seq<T>, idOf: T -> string, id: string)
    requires forall i :: 0 <= i < |items| ==> idOf(items[i]) != id
    ensures Without(items, idOf, id) == items
  {
    if items != [] {
      WithoutAbsent(items[1..], idOf, id);
    }
  }

  /** A second delete of the same id removes nothing more. */
  lemma WithoutIdempotent<T>(items: seq<T>, idOf: T -> string, id: string)
    ensures Without(Without(items, idOf, id), idOf, id) == Without(items, idOf, id)
  {
    WithoutAbsent(Without(items, idOf, id), idOf, id);
  }

  /** The number of items carrying the id. */
  function Count<T>(items: seq<T>, idOf: T -> string, id: string): nat
  {
    if items == [] then 0
    else (if idOf(items[0]) == id then 1 else 0) + Count(items[1..], idOf, id)
  }

  /** Exactly the items carrying the id are removed: the list shrinks by their number. */
  lemma {:induction false} WithoutRemovesCount<T>(items: seq<T>, idOf: T -> string, id: string)
    ensures |Without(items, idOf, id)| == |items| - Count(items, idOf, id)
  {
    if items != [] {
      WithoutRemovesCount(items[1..], idOf, id);
    }
  }
}
