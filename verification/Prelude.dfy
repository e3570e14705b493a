/** Small datatypes shared by the whole model. */
module Prelude {

  datatype Option<+T> = None | Some(value: T)

  /** What a Get call returns: the object, "not found", or another error. */
  datatype Found<+T> = Present(value: T) | Absent | Unavailable

  function Min(a: int, b: int): int {
    if a < b then a else b
  }

  /** Lower case of an ASCII string. */
  function ToLower(s: string): (r: string)
    ensures |r| == |s|
  {
    seq(|s|, i requires 0 <= i < |s| => if 'A' <= s[i] <= 'Z' then (s[i] as int + 32) as char else s[i])
  }
}
