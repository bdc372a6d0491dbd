/** Slice helpers shared by the listings. */
module Slices {
  function Reversed<T>(s: seq<T>): (r: seq<T>)
    ensures |r| == |s| && forall i :: 0 <= i < |s| ==> r[i] == s[|s| - 1 - i]
  {
    seq(|s|, i requires 0 <= i < |s| => s[|s| - 1 - i])
  }

  /** The swap loop that turns an ascending listing newest first. */
  method Reverse<T>(s: seq<T>) returns (out: seq<T>)
    ensures out == Reversed(s)
  {
    out := s;
    var i, j := 0, |s| - 1;
    while i < j
      invariant 0 <= i <= j + 1 && i + j == |s| - 1 && |out| == |s|
      invariant forall k :: 0 <= k < i || j < k < |s| ==> out[k] == s[|s| - 1 - k]
      invariant forall k :: i <= k <= j ==> out[k] == s[k]
    {
      out := out[i := out[j]][j := out[i]];
      i, j := i + 1, j - 1;
    }
  }
}
