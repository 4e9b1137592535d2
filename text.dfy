/** String helpers with JavaScript semantics used by the pages: regex classes
    `\s`, `\D` and `.`, `startsWith`, `includes`, case mapping and truthiness. */
module Text {
  import opened Wrappers
  import opened Seqs

  predicate IsDigit(c: char) { '0' <= c <= '9' }

  /** The `\s` class of JavaScript regular expressions (WhiteSpace and LineTerminator). */
  predicate IsSpace(c: char) {
    c == ' ' || c == '\t' || c == '\n' || c == '\U{000B}' || c == '\U{000C}' || c == '\r'
    || c == '\U{00A0}' || c == '\U{1680}' || ('\U{2000}' <= c <= '\U{200A}')
    || c == '\U{2028}' || c == '\U{2029}' || c == '\U{202F}' || c == '\U{205F}'
    || c == '\U{3000}' || c == '\U{FEFF}'
  }

  /** The characters that the regex `.` does not match. */
  predicate IsLineTerminator(c: char) {
    c == '\n' || c == '\r' || c == '\U{2028}' || c == '\U{2029}'
  }

  predicate NoLineTerminator(s: string) {
    forall i | 0 <= i < |s| :: !IsLineTerminator(s[i])
  }

  /** `s.replace(/\D/g, "")` */
  function KeepDigits(s: string): string {
    Filter(s, IsDigit)
  }

  /** `s.replace(/\s/g, "")` */
  function RemoveSpaces(s: string): string {
    Filter(s, c => !IsSpace(c))
  }

  predicate AllDigits(s: string) {
    forall i | 0 <= i < |s| :: IsDigit(s[i])
  }

  lemma KeepDigitsSpec(s: string)
    ensures AllDigits(KeepDigits(s))
    ensures |KeepDigits(s)| <= |s|
    ensures AllDigits(s) ==> KeepDigits(s) == s
    ensures KeepDigits(KeepDigits(s)) == KeepDigits(s)
  {
    FilterKeepsAll(s, IsDigit);
    FilterIdempotent(s, IsDigit);
  }

  /** `s.startsWith(p)` */
  predicate StartsWith(s: string, p: string) {
    |p| <= |s| && s[..|p|] == p
  }

  /** `p` occurs in `s` at index `k`. */
  predicate OccursAt(s: string, p: string, k: int) {
    0 <= k && k + |p| <= |s| && s[k..k + |p|] == p
  }

  /** `s.includes(q)`; every string includes the empty string. */
  predicate Includes(s: string, q: string) {
    exists k | 0 <= k <= |s| - |q| :: OccursAt(s, q, k)
  }

  function LowerChar(c: char): char {
    if 'A' <= c <= 'Z' then (c as int + 32) as char else c
  }

  function UpperChar(c: char): char {
    if 'a' <= c <= 'z' then (c as int - 32) as char else c
  }

  /** No ASCII capital letter. */
  predicate NoUpper(s: string) {
    forall i | 0 <= i < |s| :: !('A' <= s[i] <= 'Z')
  }

  /** No ASCII small letter. */
  predicate NoLower(s: string) {
    forall i | 0 <= i < |s| :: !('a' <= s[i] <= 'z')
  }

  /** `s.toLowerCase()` on the ASCII letters: no capital is left, and a string without
      capitals comes back unchanged. */
  function ToLower(s: string): (r: string)
    ensures |r| == |s| && forall i | 0 <= i < |s| :: r[i] == LowerChar(s[i])
    ensures NoUpper(r)
    ensures NoUpper(s) ==> r == s
  {
    seq(|s|, i requires 0 <= i < |s| => LowerChar(s[i]))
  }

  /** `s.toUpperCase()` on the ASCII letters: no small letter is left, and a string without
      small letters comes back unchanged. */
  function ToUpper(s: string): (r: string)
    ensures |r| == |s| && forall i | 0 <= i < |s| :: r[i] == UpperChar(s[i])
    ensures NoLower(r)
    ensures NoLower(s) ==> r == s
  {
    seq(|s|, i requires 0 <= i < |s| => UpperChar(s[i]))
  }

  /** Lower-casing twice is lower-casing once; so is upper-casing. */
  lemma CaseIdempotent(s: string)
    ensures ToLower(ToLower(s)) == ToLower(s)
    ensures ToUpper(ToUpper(s)) == ToUpper(s)
  {
  }

  /** Upper-casing loses nothing that lower-casing keeps: both fold a string to the same
      lower-case form, so they agree on which strings are equal ignoring case. */
  lemma CaseFoldsAgree(s: string)
    ensures ToLower(ToUpper(s)) == ToLower(s)
    ensures ToUpper(ToLower(s)) == ToUpper(s)
  {
    forall i | 0 <= i < |s|
      ensures LowerChar(UpperChar(s[i])) == LowerChar(s[i]) && UpperChar(LowerChar(s[i])) == UpperChar(s[i])
    {
    }
  }

  /** `!s.trim()`: the string is empty or only white space. */
  predicate IsBlank(s: string) {
    forall i | 0 <= i < |s| :: IsSpace(s[i])
  }

  /** JavaScript truthiness of a nullable string: present and not empty. */
  predicate Truthy(x: Option<string>) {
    x.Some? && x.value != ""
  }

  /** `x || d` for a nullable string: null and "" are both falsy. */
  function OrElse(x: Option<string>, d: string): (r: string)
    ensures Truthy(x) ==> r == x.value
    ensures r == d || Some(r) == x
    ensures d != "" ==> r != ""
  {
    if Truthy(x) then x.value else d
  }

  /** `x || null` for a string: the empty string becomes null. */
  function NullIfEmpty(x: string): (r: Option<string>)
    ensures r != Some("")
    ensures OrElse(r, "") == x
  {
    if x == "" then None else Some(x)
  }
}
