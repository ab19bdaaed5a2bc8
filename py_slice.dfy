/** Python's `s[:stop]` on a list, including the negative-stop case. */
module PySlice {

  function Min(a: int, b: int): int { if a <= b then a else b }

  function Max(a: int, b: int): int { if a >= b then a else b }

  /** The number of elements `s[:stop]` keeps: a non-negative stop is clamped to `|s|`,
      a negative stop counts from the end and is clamped to 0. */
  function StopIndex(len: nat, stop: int): (k: nat)
    ensures k <= len
  {
    if stop >= 0 then Min(stop, len) else Max(0, len + stop)
  }

  /** `s[:stop]` in Python. */
  function Head<T>(s: seq<T>, stop: int): (r: seq<T>)
    ensures r <= s
  {
    s[..StopIndex(|s|, stop)]
  }
}
