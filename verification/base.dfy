/** Small shared vocabulary: an optional value and the character and prefix
    tests that JavaScript's `String.prototype.startsWith` and the regular
    expression class `\d` perform on the server's strings. */
module Base {

  /** A value that may be absent (JavaScript `null`/`undefined` or a failed lookup). */
  datatype Option<+T> = None | Some(value: T)

  /** The regular-expression class `\d` without the `u` flag: ASCII 0-9 only. */
  predicate IsDigit(c: char) {
    '0' <= c <= '9'
  }

  predicate AllDigits(s: string) {
    forall i :: 0 <= i < |s| ==> IsDigit(s[i])
  }

  /** `s.startsWith(prefix)`. */
  predicate StartsWith(s: string, prefix: string) {
    |prefix| <= |s| && s[..|prefix|] == prefix
  }
}
