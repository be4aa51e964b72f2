/** Option type used for the source's `None` results and raised exceptions. */
module Wrappers {
  datatype Option<+T> = None | Some(value: T)
}

/** Python floats as the formatting and report code sees them: NaN or a finite number. */
module Floats {
  datatype Float = NaN | Num(value: real)

  function Abs(x: real): (r: real)
    ensures r >= 0.0 && (r == x || r == -x)
  {
    if x < 0.0 then -x else x
  }
}

/** Python's `s[:n]` on a list, negative n included. */
module Slices {
  function Min(a: int, b: int): int { if a <= b then a else b }

  function Max(a: int, b: int): int { if a >= b then a else b }

  function SliceTo<T>(s: seq<T>, n: int): (r: seq<T>)
    ensures |r| == if n >= 0 then Min(n, |s|) else Max(0, |s| + n)
    ensures r == s[..|r|]
  {
    if n >= 0 then s[..Min(n, |s|)] else s[..Max(0, |s| + n)]
  }
}
