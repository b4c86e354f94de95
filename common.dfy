/** Small shared vocabulary: optional values, results with an error message,
    and the two string operations the server layer relies on. */
module Common {

  datatype Option<+T> = None | Some(value: T)

  datatype Result<+T, +E> = Success(value: T) | Failure(error: E)

  /** `/^prefix/.test(s)`, and equally `s.substr(0, |prefix|) === prefix`. */
  predicate StartsWith(s: string, prefix: string) {
    |prefix| <= |s| && s[..|prefix|] == prefix
  }

  /** ASCII case folding of one character. */
  function LowerChar(c: char): char
  {
    if 'A' <= c <= 'Z' then (c as int + 32) as char else c
  }

  /** `String.prototype.toLowerCase`, restricted to ASCII letters. */
  function Lower(s: string): string
  {
    seq(|s|, i requires 0 <= i < |s| => LowerChar(s[i]))
  }

  /** What a case-insensitive comparison needs of `toLowerCase`: the result
      holds no ASCII capital, folding twice changes nothing, and both
      spellings of the method name fold to the same string. */
  lemma LowerFolds(s: string)
    ensures forall i :: 0 <= i < |Lower(s)| ==> !('A' <= Lower(s)[i] <= 'Z')
    ensures Lower(Lower(s)) == Lower(s)
    ensures Lower("POST") == Lower("post") == "post"
  {
    assert Lower("POST") == "post";
  }
}
