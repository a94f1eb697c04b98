/** The two text helpers of the chat pipeline: the character-count token
    estimate and the input sanitiser (app/services/utils.py). */
module Utils {

  import opened PyStr
  import PySlice

  /** The number of characters over all `texts`, `sum(len(t) for t in texts)`. */
  function TotalLength(texts: seq<string>): (n: nat)
    ensures |texts| == 1 ==> n == |texts[0]|
    ensures texts != [] ==> |texts[0]| <= n
  {
    if texts == [] then 0 else |texts[0]| + TotalLength(texts[1..])
  }

  lemma {:induction false} TotalLengthAppend(a: seq<string>, b: seq<string>)
    ensures TotalLength(a + b) == TotalLength(a) + TotalLength(b)
  {
    if a == [] {
      assert a + b == b;
    } else {
      assert (a + b)[1..] == a[1..] + b;
      TotalLengthAppend(a[1..], b);
    }
  }

  /** No single text is longer than all of them together. */
  lemma {:induction false} TotalLengthCoversEach(texts: seq<string>, i: nat)
    requires i < |texts|
    ensures |texts[i]| <= TotalLength(texts)
  {
    if i > 0 {
      TotalLengthCoversEach(texts[1..], i - 1);
    }
  }

  /** The first and the last of two or more texts are together no longer
      than all of them. */
  lemma TotalLengthCoversEnds(texts: seq<string>)
    requires |texts| >= 2
    ensures |texts[0]| + |texts[|texts| - 1]| <= TotalLength(texts)
  {
    TotalLengthCoversEach(texts[1..], |texts| - 2);
  }

  /** `approximate_token_count`: about four characters per token, rounded
      down, so `4 * n` is the largest multiple of four not above the total. */
  function ApproximateTokenCount(texts: seq<string>): (n: nat)
    ensures 4 * n <= TotalLength(texts) < 4 * n + 4
  {
    TotalLength(texts) / 4
  }

  lemma TokenCountExamples()
    ensures ApproximateTokenCount([]) == 0
    ensures ApproximateTokenCount(["aaaa"]) == 1
    ensures ApproximateTokenCount(["aaa"]) == 0
  {
    assert ["aaaa"][1..] == [];
    assert ["aaa"][1..] == [];
  }

  /** Adding one more text never lowers the estimate. */
  lemma TokenCountMonotone(texts: seq<string>, t: string)
    ensures ApproximateTokenCount(texts) <= ApproximateTokenCount(texts + [t])
  {
    TotalLengthAppend(texts, [t]);
  }

  /** Estimating two lists apart and adding up, as the orchestrator does for
      the prompt and the reply, loses at most one token against estimating
      them together. */
  lemma TokenCountSplit(a: seq<string>, b: seq<string>)
    ensures ApproximateTokenCount(a) + ApproximateTokenCount(b) <= ApproximateTokenCount(a + b)
    ensures ApproximateTokenCount(a + b) <= ApproximateTokenCount(a) + ApproximateTokenCount(b) + 1
  {
    TotalLengthAppend(a, b);
  }

  /** The default `max_length` of `sanitize_user_input`. */
  const DefaultMaxLength: int := 2000

  /** `sanitize_user_input(text, max_length)`, that is `text.strip()[:max_length]`:
      a prefix of the stripped text, at most `maxLength` long, and the whole
      stripped text when it fits. A negative `maxLength` is a Python slice
      stop and drops that many characters from the end. */
  function SanitizeUserInput(text: string, maxLength: int): (r: string)
    ensures |r| <= |Strip(text)| && r == Strip(text)[..|r|]
    ensures 0 <= maxLength ==> |r| <= maxLength
    ensures |Strip(text)| <= maxLength ==> r == Strip(text)
    ensures 0 <= maxLength < |Strip(text)| ==> |r| == maxLength
    ensures maxLength < 0 <= |Strip(text)| + maxLength ==> |r| == |Strip(text)| + maxLength
    ensures |Strip(text)| + maxLength < 0 ==> r == ""
    ensures r != "" ==> !IsWhitespace(r[0])
  {
    PySlice.Take(Strip(text), maxLength)
  }

  /** Surrounding whitespace is stripped. */
  lemma SanitizeStripsExample()
    ensures SanitizeUserInput("  hi  ", 10) == "hi"
  {
    assert SkipForward("  hi  ", 0) == 2;
    assert SkipBackward("  hi  ", 6) == 4;
  }

  /** A long input is cut to the limit. */
  lemma SanitizeTruncatesExample()
    ensures SanitizeUserInput(seq(100, _ => 'x'), 5) == "xxxxx"
  {
    var xs := seq(100, _ => 'x');
    StripUnchanged(xs);
    assert xs[..5] == "xxxxx";
  }

  /** Truncation can leave whitespace at the end of the result, so sanitising
      a sanitised text can change it again. */
  lemma SanitizeNotIdempotent()
    ensures SanitizeUserInput("a b", 2) == "a "
    ensures SanitizeUserInput(SanitizeUserInput("a b", 2), 2) == "a"
  {
    StripUnchanged("a b");
    assert "a b"[..2] == "a ";
    assert SkipForward("a ", 0) == 0;
    assert SkipBackward("a ", 2) == 1;
  }
}
