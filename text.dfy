/** The .NET string predicates the core relies on. */
module Text {

  /**
   * `char.IsWhiteSpace`: the members of the Unicode categories Zs, Zl and Zp,
   * plus the control characters U+0009 to U+000D and U+0085.
   */
  predicate IsWhiteSpace(c: char)
    ensures ('0' <= c <= '9' || 'a' <= c <= 'z' || 'A' <= c <= 'Z') ==> !IsWhiteSpace(c)
    ensures (c == ' ' || c == '\t' || c == '\n' || c == '\r') ==> IsWhiteSpace(c)
  {
    || c == ' '
    || ('\t' <= c <= '\r')
    || c == '\U{0085}'
    || c == '\U{00A0}'
    || c == '\U{1680}'
    || ('\U{2000}' <= c <= '\U{200A}')
    || c == '\U{2028}'
    || c == '\U{2029}'
    || c == '\U{202F}'
    || c == '\U{205F}'
    || c == '\U{3000}'
  }

  /**
   * `string.IsNullOrWhiteSpace` on a non-null string: the string is empty or
   * every one of its characters is white space.
   */
  predicate IsNullOrWhiteSpace(s: string)
    ensures IsNullOrWhiteSpace(s) <==> forall c | c in s :: IsWhiteSpace(c)
    ensures s == "" ==> IsNullOrWhiteSpace(s)
  {
    forall i | 0 <= i < |s| :: IsWhiteSpace(s[i])
  }

  /** ASCII lower-casing: `A`..`Z` become `a`..`z`, every other character is kept. */
  function AsciiLower(c: char): (r: char)
    ensures !('A' <= r <= 'Z')
    ensures !('A' <= c <= 'Z') ==> r == c
    ensures 'A' <= c <= 'Z' ==> 'a' <= r <= 'z' && r as int - c as int == 'a' as int - 'A' as int
  {
    if 'A' <= c <= 'Z' then (c as int + 32) as char else c
  }

  /** Ordinal comparison ignoring the case of ASCII letters. */
  predicate EqualsIgnoreCase(a: string, b: string)
    ensures EqualsIgnoreCase(a, b) ==> |a| == |b|
  {
    |a| == |b| && forall i | 0 <= i < |a| :: AsciiLower(a[i]) == AsciiLower(b[i])
  }

  /** Every string equals itself ignoring case. */
  lemma EqualsIgnoreCaseReflexive(a: string)
    ensures EqualsIgnoreCase(a, a)
  {
  }

  /** The comparison does not depend on the order of its arguments. */
  lemma EqualsIgnoreCaseSymmetric(a: string, b: string)
    ensures EqualsIgnoreCase(a, b) <==> EqualsIgnoreCase(b, a)
  {
  }
}
