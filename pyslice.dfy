/** The two Python slice forms the chat pipeline uses, `s[:stop]` and
    `s[start:]`, with Python's rules for negative and out-of-range bounds. */
module PySlice {

  /** Python's normalisation of a slice bound against a sequence of length
      `len`: a negative bound counts from the end, and the result is clamped
      to `0 .. len`. */
  function Normalize(i: int, len: nat): (k: nat)
    ensures k <= len
    ensures 0 <= i <= len ==> k == i
    ensures len < i ==> k == len
    ensures i < 0 <= len + i ==> k == len + i
    ensures len + i < 0 ==> k == 0
  {
    if i < 0 then (if len + i < 0 then 0 else len + i)
    else (if i <= len then i else len)
  }

  /** `s[:stop]` */
  function Take<T>(s: seq<T>, stop: int): (r: seq<T>)
    ensures |r| <= |s| && r == s[..|r|]
    ensures 0 <= stop ==> |r| == if stop <= |s| then stop else |s|
  {
    s[..Normalize(stop, |s|)]
  }

  /** `s[start:]`; note that `s[-0:]` is `s[0:]`, the whole sequence. */
  function From<T>(s: seq<T>, start: int): (r: seq<T>)
    ensures |r| <= |s| && r == s[|s| - |r|..]
    ensures start == 0 ==> r == s
    ensures start < 0 ==> |r| == if |s| <= -start then |s| else -start
  {
    s[Normalize(start, |s|)..]
  }
}
