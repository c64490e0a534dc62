/**
 * Byte strings and UTF-8 well-formedness.
 *
 * A Rust `String` is a byte string that is well-formed UTF-8; names handed out
 * by the operating system (`OsString`, `Path`) are byte strings that may not be.
 * Every text of the model is kept as bytes, and `WellFormed` is the test that
 * `OsString::into_string`, `Path::to_str` and `read_to_string` apply.
 */
module Utf8Text {

  newtype byte = x: int | 0 <= x < 0x100

  type Text = seq<byte>

  predicate IsContinuation(b: byte) {
    0x80 <= b <= 0xBF
  }

  /**
   * The number of bytes of the character encoded at the front of `s`, following
   * the well-formed byte sequences of section 4 of RFC 3629; 0 when `s` does not
   * start with one (empty input, a stray continuation byte, an overlong form,
   * a surrogate, a code point above U+10FFFF, or a truncated sequence).
   */
  function LeadWidth(s: Text): (w: nat)
    ensures w <= |s| && w <= 4
    ensures w > 0 ==> |s| > 0
  {
    if |s| == 0 then 0
    else if s[0] <= 0x7F then 1
    else if 0xC2 <= s[0] <= 0xDF then
      (if |s| >= 2 && IsContinuation(s[1]) then 2 else 0)
    else if s[0] == 0xE0 then
      (if |s| >= 3 && 0xA0 <= s[1] <= 0xBF && IsContinuation(s[2]) then 3 else 0)
    else if 0xE1 <= s[0] <= 0xEC || 0xEE <= s[0] <= 0xEF then
      (if |s| >= 3 && IsContinuation(s[1]) && IsContinuation(s[2]) then 3 else 0)
    else if s[0] == 0xED then
      (if |s| >= 3 && 0x80 <= s[1] <= 0x9F && IsContinuation(s[2]) then 3 else 0)
    else if s[0] == 0xF0 then
      (if |s| >= 4 && 0x90 <= s[1] <= 0xBF && IsContinuation(s[2]) && IsContinuation(s[3]) then 4 else 0)
    else if 0xF1 <= s[0] <= 0xF3 then
      (if |s| >= 4 && IsContinuation(s[1]) && IsContinuation(s[2]) && IsContinuation(s[3]) then 4 else 0)
    else if s[0] == 0xF4 then
      (if |s| >= 4 && 0x80 <= s[1] <= 0x8F && IsContinuation(s[2]) && IsContinuation(s[3]) then 4 else 0)
    else 0
  }

  /** `s` is a sequence of well-formed UTF-8 characters. */
  predicate WellFormed(s: Text)
    decreases |s|
  {
    s == [] || (LeadWidth(s) > 0 && WellFormed(s[LeadWidth(s)..]))
  }

  /** The width of a leading character does not depend on what follows it. */
  lemma LeadWidthOfPrefix(a: Text, b: Text)
    requires LeadWidth(a) > 0
    ensures LeadWidth(a + b) == LeadWidth(a)
  {
  }

  /** Behind a well-formed text, a text is well-formed exactly when the whole is. */
  lemma {:induction false} ConcatWellFormed(a: Text, b: Text)
    requires WellFormed(a)
    ensures WellFormed(a + b) <==> WellFormed(b)
    decreases |a|
  {
    if a == [] {
      assert a + b == b;
    } else {
      var w := LeadWidth(a);
      LeadWidthOfPrefix(a, b);
      assert (a + b)[w..] == a[w..] + b;
      ConcatWellFormed(a[w..], b);
    }
  }
}
