/** Go slices over backing arrays with spare capacity. */
module Slices {

  /** A slice header: a backing array (its length is the capacity) and a length. */
  datatype Slice<T> = Slice(arr: array<T>, len: nat)

  ghost predicate Ok<T>(s: Slice<T>) {
    s.len <= s.arr.Length
  }

  function Contents<T>(s: Slice<T>): seq<T>
    requires Ok(s)
    reads s.arr
  {
    s.arr[..s.len]
  }

  /** `append(s, xs...)`: written into the backing array when it fits there, else into a new array with
      `spare` elements to spare (Go does not say how many). */
  method Append<T>(s: Slice<T>, xs: seq<T>, spare: nat) returns (r: Slice<T>)
    requires Ok(s)
    modifies s.arr
    ensures Ok(r) && Contents(r) == old(Contents(s)) + xs
    ensures s.arr[..s.len] == old(s.arr[..s.len])
    ensures if s.len + |xs| <= s.arr.Length then r.arr == s.arr else fresh(r.arr)
  {
    if s.len + |xs| <= s.arr.Length {
      r := AppendInPlace(s, xs);
    } else {
      r := AppendGrowing(s, xs, spare);
    }
  }

  method AppendInPlace<T>(s: Slice<T>, xs: seq<T>) returns (r: Slice<T>)
    requires s.len + |xs| <= s.arr.Length
    modifies s.arr
    ensures Ok(r) && r == Slice(s.arr, s.len + |xs|)
    ensures s.arr[..s.len] == old(s.arr[..s.len])
    ensures Contents(r) == old(s.arr[..s.len]) + xs
  {
    for i := 0 to |xs|
      invariant s.arr[..s.len] == old(s.arr[..s.len])
      invariant forall k :: 0 <= k < i ==> s.arr[s.len + k] == xs[k]
    {
      s.arr[s.len + i] := xs[i];
    }
    r := Slice(s.arr, s.len + |xs|);
  }

  method AppendGrowing<T>(s: Slice<T>, xs: seq<T>, spare: nat) returns (r: Slice<T>)
    requires Ok(s) && |xs| > 0
    ensures Ok(r) && fresh(r.arr)
    ensures Contents(r) == Contents(s) + xs
  {
    var a := new T[s.len + |xs| + spare](i => xs[0]);
    for i := 0 to s.len
      invariant forall k :: 0 <= k < i ==> a[k] == s.arr[k]
    {
      a[i] := s.arr[i];
    }
    for i := 0 to |xs|
      invariant forall k :: 0 <= k < s.len ==> a[k] == s.arr[k]
      invariant forall k :: 0 <= k < i ==> a[s.len + k] == xs[k]
    {
      a[s.len + i] := xs[i];
    }
    r := Slice(a, s.len + |xs|);
  }

  /** `append([]T{}, s...)`: a copy that shares nothing. */
  method Copy<T>(s: Slice<T>, spare: nat) returns (r: Slice<T>)
    requires Ok(s)
    ensures Ok(r) && fresh(r.arr) && Contents(r) == Contents(s)
  {
    var empty := new T[0];
    r := Append(Slice(empty, 0), Contents(s), spare);
    assert |Contents(s)| == 0 ==> fresh(r.arr);
  }
}
