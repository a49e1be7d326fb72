/** The engine's generic iterative binary search over the first `size`
    elements of an array. The element type's `operator>` is passed in as
    `gt`; its `operator==` is Dafny's equality. */
module BinarySearch {

  /** `gt` behaves like `>` on a totally ordered type: irreflexive,
      transitive, and any two distinct values are comparable. */
  ghost predicate IsStrictTotalOrder<T(!new)>(gt: (T, T) -> bool) {
    (forall x :: !gt(x, x)) &&
    (forall x, y, z :: gt(x, y) && gt(y, z) ==> gt(x, z)) &&
    (forall x, y :: x != y ==> gt(x, y) || gt(y, x))
  }

  /** The first `size` elements of `a` are in ascending order. */
  ghost predicate SortedPrefix<T>(a: array<T>, size: int, gt: (T, T) -> bool)
    reads a
    requires size <= a.Length
  {
    forall i, j :: 0 <= i < j < size ==> !gt(a[i], a[j])
  }

  /** `elem` occurs among the first `size` elements of `a`. */
  ghost predicate OccursIn<T>(a: array<T>, size: int, elem: T)
    reads a
    requires size <= a.Length
  {
    exists k :: 0 <= k < size && a[k] == elem
  }

  /** Returns an index of `elem` among `a[0 .. size-1]`, or -1.
      `probes` records every index the loop reads, in order; the method
      has no `modifies` clause, so the array is only read. */
  method BinSearch<T(==, !new)>(a: array<T>, elem: T, size: int, gt: (T, T) -> bool)
    returns (r: int, ghost probes: seq<int>)
    requires size <= a.Length
    ensures r == -1 || (0 <= r < size && a[r] == elem)
    ensures size <= 0 ==> r == -1 && probes == []
    ensures forall p :: p in probes ==> 0 <= p < size
    ensures IsStrictTotalOrder(gt) && SortedPrefix(a, size, gt) ==>
              (r == -1 <==> !OccursIn(a, size, elem))
  {
    var start := 0;
    var end := size - 1;
    probes := [];
    var mid := -1;
    while start <= end
      invariant 0 <= start && end < size
      invariant forall p :: p in probes ==> 0 <= p < size
      invariant size <= 0 ==> probes == []
      invariant IsStrictTotalOrder(gt) && SortedPrefix(a, size, gt) ==>
                  forall k :: 0 <= k < size && (k < start || end < k) ==> a[k] != elem
      decreases end - start
    {
      mid := (start + end) / 2;
      probes := probes + [mid];
      if a[mid] == elem {
        return mid, probes;
      }
      if gt(elem, a[mid]) {
        ghost var s := start;
        start := mid + 1;
        assert IsStrictTotalOrder(gt) && SortedPrefix(a, size, gt) ==>
                 forall k :: s <= k <= mid ==> a[k] != elem by {
          if IsStrictTotalOrder(gt) && SortedPrefix(a, size, gt) {
            forall k | s <= k <= mid ensures a[k] != elem {
              if k < mid { assert !gt(a[k], a[mid]); }
            }
          }
        }
      } else {
        ghost var e := end;
        end := mid - 1;
        assert IsStrictTotalOrder(gt) && SortedPrefix(a, size, gt) ==>
                 forall k :: mid <= k <= e ==> a[k] != elem by {
          if IsStrictTotalOrder(gt) && SortedPrefix(a, size, gt) {
            forall k | mid <= k <= e ensures a[k] != elem {
              if mid < k { assert !gt(a[mid], a[k]); }
            }
          }
        }
      }
    }
    return -1, probes;
  }
}
