/** Python's slice semantics on lists, bytes and strings, where an index may be negative or out of range. */
module PySeq {

  function Min(a: int, b: int): int { if a <= b then a else b }
  function Max(a: int, b: int): int { if a >= b then a else b }

  /** Python's `s[:n]`: a negative `n` counts from the end, an `n` past the end is clamped. */
  function Prefix<T>(s: seq<T>, n: int): (r: seq<T>)
    ensures |r| == if n >= 0 then Min(n, |s|) else Max(|s| + n, 0)
    ensures r == s[..|r|]
  {
    if n >= 0 then s[..Min(n, |s|)] else s[..Max(|s| + n, 0)]
  }

  /** Python's `s[k:]`: a negative `k` counts from the end, a `k` past the end yields the empty slice. */
  function Suffix<T>(s: seq<T>, k: int): (r: seq<T>)
    ensures |r| == if k >= 0 then |s| - Min(k, |s|) else Min(-k, |s|)
    ensures r == s[|s| - |r|..]
  {
    if k >= 0 then s[Min(k, |s|)..] else s[Max(|s| + k, 0)..]
  }

  /** Python's `s[lo:hi]` for non-negative bounds: both are clamped to the length, and `lo >= hi` is empty. */
  function Slice<T>(s: seq<T>, lo: nat, hi: nat): (r: seq<T>)
    ensures |r| == Max(Min(hi, |s|) - Min(lo, |s|), 0)
    ensures lo <= |s| ==> r == s[lo..lo + |r|]
  {
    if Min(lo, |s|) <= Min(hi, |s|) then s[Min(lo, |s|)..Min(hi, |s|)] else []
  }
}
