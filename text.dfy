/** String helpers shared by the engine and the client: lower-casing as far as it
    matters for matching ASCII words, and substring search. */
module Text {

  /** Lower-cases one character. Python's `str.lower` and JavaScript's
      `toLowerCase` agree with this on every character whose lower-case form
      contains an ASCII letter followed by nothing else: the ASCII capitals, and
      the Kelvin sign, which lower-cases to 'k'. Every other character is kept,
      which is exact for deciding equality with, or containment of, an ASCII
      lower-case word (a character such as U+0130 lower-cases to two characters,
      an ASCII letter followed by a combining mark, which cannot line up with
      such a word either way). */
  function LowerChar(c: char): (d: char)
    ensures 'a' <= d <= 'z' ==> c == d || c == d - 'a' + 'A' || (c == '\U{212A}' && d == 'k')
    ensures !('A' <= c <= 'Z') && c != '\U{212A}' ==> d == c
  {
    if 'A' <= c <= 'Z' then (c as int + 32) as char
    else if c == '\U{212A}' then 'k'
    else c
  }

  function Lower(s: string): (r: string)
    ensures |r| == |s|
    ensures forall i :: 0 <= i < |s| ==> r[i] == LowerChar(s[i])
  {
    seq(|s|, i requires 0 <= i < |s| => LowerChar(s[i]))
  }

  predicate StartsWith(s: string, w: string) {
    |w| <= |s| && s[..|w|] == w
  }

  /** `w in s` in Python, `s.includes(w)` in JavaScript. */
  predicate Contains(s: string, w: string)
    decreases |s|
  {
    StartsWith(s, w) || (|s| > 0 && Contains(s[1..], w))
  }

  /** `w` occurs in `s` starting at offset `i`. */
  predicate OccursAt(s: string, w: string, i: int) {
    0 <= i <= |s| - |w| && s[i..i + |w|] == w
  }

  /** Substring search agrees with its declarative reading: `w` occurs at some
      offset of `s`. */
  lemma {:induction false} ContainsAt(s: string, w: string)
    ensures Contains(s, w) <==> exists i :: OccursAt(s, w, i)
    decreases |s|
  {
    if |s| > 0 {
      ContainsAt(s[1..], w);
      if Contains(s[1..], w) {
        var i :| OccursAt(s[1..], w, i);
        assert s[i + 1..i + 1 + |w|] == s[1..][i..i + |w|];
        assert OccursAt(s, w, i + 1);
      }
      if StartsWith(s, w) {
        assert OccursAt(s, w, 0);
      }
      if i :| OccursAt(s, w, i) {
        if i > 0 {
          assert s[1..][i - 1..i - 1 + |w|] == s[i..i + |w|];
          assert OccursAt(s[1..], w, i - 1);
        } else {
          assert s[..|w|] == s[i..i + |w|];
        }
      }
    } else {
      if StartsWith(s, w) {
        assert OccursAt(s, w, 0);
      }
      if i :| OccursAt(s, w, i) {
        assert i == 0 && s[..|w|] == s[i..i + |w|];
      }
    }
  }

  /** A string that contains a word contains it wherever the string is extended. */
  lemma {:induction false} ContainsExtended(a: string, s: string, b: string, w: string)
    requires Contains(s, w)
    ensures Contains(a + s + b, w)
  {
    ContainsAt(s, w);
    var i :| OccursAt(s, w, i);
    assert (a + s + b)[|a| + i..|a| + i + |w|] == s[i..i + |w|];
    assert OccursAt(a + s + b, w, |a| + i);
    ContainsAt(a + s + b, w);
  }
}
