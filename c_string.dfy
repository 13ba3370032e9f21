/**
 * C strings over Dafny sequences. A `char` buffer holds a C string up to its
 * first `'\0'`; the end of the sequence also ends the string, which is how a
 * string literal such as an entry of `alp` ends.
 */
module CStrings {

  /** The C string held in `buf`: everything before the first `'\0'`. */
  function CString(buf: seq<char>): (s: seq<char>)
    ensures s <= buf
    ensures '\0' !in s
    ensures |s| < |buf| ==> buf[|s|] == '\0'
  {
    if |buf| == 0 || buf[0] == '\0' then [] else [buf[0]] + CString(buf[1..])
  }

  /** The character C reads at the front of `a`: its first, or the terminator. */
  function Head(a: seq<char>): char {
    if |a| == 0 then '\0' else a[0]
  }

  /**
   * `strcmp`: walks both strings while their characters agree and are not the
   * terminator; the result is the difference of the first characters that
   * differ, so it is 0 exactly when the strings are equal.
   */
  function Strcmp(a: seq<char>, b: seq<char>): (r: int)
    ensures r == 0 <==> CString(a) == CString(b)
    decreases |a|
  {
    if Head(a) != Head(b) then Head(a) as int - Head(b) as int
    else if Head(a) == '\0' then 0
    else Strcmp(a[1..], b[1..])
  }

  /** A sequence without a `'\0'` is a C string of its own length. */
  lemma {:induction false} CStringOfUnterminated(s: seq<char>)
    requires '\0' !in s
    ensures CString(s) == s
  {
    if |s| > 0 {
      assert '\0' !in s[1..];
      CStringOfUnterminated(s[1..]);
    }
  }

  /**
   * Writing `'\0'` just after a prefix without `'\0'` makes that prefix the
   * C string of the buffer, whatever follows.
   */
  lemma {:induction false} CStringOfTerminated(buf: seq<char>, n: nat)
    requires n < |buf|
    requires '\0' !in buf[..n]
    requires buf[n] == '\0'
    ensures CString(buf) == buf[..n]
  {
    if n > 0 {
      assert buf[1..][..n - 1] == buf[1..n];
      assert '\0' !in buf[1..][..n - 1];
      CStringOfTerminated(buf[1..], n - 1);
    }
  }
}
