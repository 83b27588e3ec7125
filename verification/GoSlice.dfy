/** Go slices that start at the front of their backing array, and `append` on them. */
module GoSlice {

  /** The first `len` elements of `arr`; the capacity is `arr.Length`. */
  datatype Slice<T> = Slice(arr: array<T>, len: nat)

  ghost predicate Fits<T>(s: Slice<T>)
  {
    s.len <= s.arr.Length
  }

  ghost function View<T>(s: Slice<T>): seq<T>
    requires Fits(s)
    reads s.arr
  {
    s.arr[..s.len]
  }

  /** Writes in place behind the slice when there is room, and moves to a larger array
      otherwise. `spare` is how much more room the new array gets than it needs. */
  method Append<T(0)>(s: Slice<T>, x: T, spare: nat) returns (r: Slice<T>)
    requires Fits(s)
    modifies s.arr
    ensures Fits(r) && View(r) == old(View(s)) + [x]
    ensures if s.len < s.arr.Length then r.arr == s.arr else fresh(r.arr)
    ensures View(s) == old(View(s))
  {
    if s.len < s.arr.Length {
      s.arr[s.len] := x;
      return Slice(s.arr, s.len + 1);
    }
    var bigger := new T[s.len + 1 + spare];
    forall i | 0 <= i < s.len {
      bigger[i] := s.arr[i];
    }
    bigger[s.len] := x;
    r := Slice(bigger, s.len + 1);
    assert View(r) == old(View(s)) + [x];
  }
}
