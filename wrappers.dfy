/** Small helper types shared by the other modules. */
module Wrappers {

  /** A value that may be absent: Python's `None` or a failed external call. */
  datatype Option<+T> = None | Some(value: T)

  /** `part` occurs somewhere inside `s` as a contiguous run of characters. */
  predicate IsSubstring(part: string, s: string)
  {
    exists i :: 0 <= i <= |s| && part <= s[i..]
  }

  /** Whatever stands between a prefix and a suffix occurs inside their concatenation. */
  lemma SubstringOfConcat(a: string, b: string, c: string)
    ensures IsSubstring(b, a + b + c)
  {
    assert b <= (a + b + c)[|a|..];
  }

  /** A phrase quoted inside a text occurs in it both bare and with its quotes. */
  lemma QuotedSubstring(head: string, phrase: string, tail: string)
    ensures IsSubstring(phrase, head + "'" + phrase + "'" + tail)
    ensures IsSubstring("'" + phrase + "'", head + "'" + phrase + "'" + tail)
  {
    assert head + "'" + phrase + "'" + tail == (head + "'") + phrase + ("'" + tail);
    SubstringOfConcat(head + "'", phrase, "'" + tail);
    assert head + "'" + phrase + "'" + tail == head + ("'" + phrase + "'") + tail;
    SubstringOfConcat(head, "'" + phrase + "'", tail);
  }
}
