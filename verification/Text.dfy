/** White space and trimming, as the program's strings have them. */
module Text {
  /** The characters removed by `trim` and matched by `\s`. */
  predicate IsSpace(c: char) {
    var n := c as int;
    || 9 <= n <= 13 || n == 0x20 || n == 0xA0 || n == 0x1680 || 0x2000 <= n <= 0x200A
    || n == 0x2028 || n == 0x2029 || n == 0x202F || n == 0x205F || n == 0x3000 || n == 0xFEFF
  }

  /** The first character from `i` on that is not white space. */
  function FirstInk(s: string, i: nat): (r: nat)
    requires i <= |s|
    ensures i <= r <= |s| && (r < |s| ==> !IsSpace(s[r]))
    decreases |s| - i
  {
    if i < |s| && IsSpace(s[i]) then FirstInk(s, i + 1) else i
  }

  /** The end of the text between `from` and `end` without the white space there. */
  function InkEnd(s: string, from: nat, end: nat): (r: nat)
    requires from <= end <= |s|
    ensures from <= r <= end && (r > from ==> !IsSpace(s[r - 1]))
  {
    if end > from && IsSpace(s[end - 1]) then InkEnd(s, from, end - 1) else end
  }

  /** A trimmed string has no white space at either end. */
  predicate Trimmed(s: string) { s == "" || (!IsSpace(s[0]) && !IsSpace(s[|s| - 1])) }

  function Trim(s: string): (r: string)
    ensures Trimmed(r) && (Trimmed(s) ==> r == s)
  {
    var from := FirstInk(s, 0);
    s[from..InkEnd(s, from, |s|)]
  }
}
