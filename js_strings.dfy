/** The parts of JavaScript's `String.prototype` the bridge relies on:
    `slice` with negative indices and `padStart` with a one-character pad. */
module JsStrings {

  /** The character `c` repeated `n` times. */
  function Repeat(c: char, n: nat): (r: string)
    ensures |r| == n
    ensures forall i :: 0 <= i < n ==> r[i] == c
  {
    if n == 0 then [] else [c] + Repeat(c, n - 1)
  }

  /** How `slice` turns an argument into a position: a negative index counts
      back from the end, and the result is clamped to `[0, len]`. */
  function RelativeIndex(k: int, len: nat): (i: nat)
    ensures i <= len
    ensures 0 <= k <= len ==> i == k
    ensures k < 0 <= len + k ==> i == len + k
    ensures len + k < 0 ==> i == 0
    ensures len < k ==> i == len
  {
    if k < 0 then (if len + k < 0 then 0 else len + k)
    else if k < len then k else len
  }

  /** `s.slice(start, end)`: the characters from `start` up to `end`, empty
      when the clamped start is not before the clamped end. */
  function Slice(s: string, start: int, end: int): (r: string)
    ensures 0 <= start <= end <= |s| ==> r == s[start..end]
    ensures 0 <= start <= |s| <= end ==> r == s[start..]
    ensures start < 0 <= |s| + start && |s| <= end ==> r == s[|s| + start..]
    ensures |s| <= start ==> r == []
    ensures RelativeIndex(end, |s|) <= RelativeIndex(start, |s|) ==> r == []
    ensures |r| <= |s| - RelativeIndex(start, |s|)
    ensures r == s[RelativeIndex(start, |s|)..RelativeIndex(start, |s|) + |r|]
  {
    var from, to := RelativeIndex(start, |s|), RelativeIndex(end, |s|);
    if from < to then s[from..to] else []
  }

  /** `s.slice(start)`: the end defaults to the length of the string. */
  function SliceFrom(s: string, start: int): (r: string)
    ensures |r| <= |s|
    ensures r == s[|s| - |r|..]
    ensures 0 <= start <= |s| ==> r == s[start..]
    ensures start < 0 <= |s| + start ==> r == s[|s| + start..]
    ensures |s| < start ==> r == []
    ensures |s| + start < 0 ==> r == s
  {
    Slice(s, start, |s|)
  }

  /** `s.padStart(n, c)`: `c` is put in front until the length reaches `n`;
      a string already that long is returned as it is. */
  function PadStart(s: string, n: nat, c: char): (r: string)
    ensures |r| == if |s| < n then n else |s|
    ensures r[|r| - |s|..] == s
    ensures forall i :: 0 <= i < |r| - |s| ==> r[i] == c
  {
    if |s| < n then Repeat(c, n - |s|) + s else s
  }
}
