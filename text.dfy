/** Character classes, substring search and path joining, as Python's
    `re` module and `posixpath` define them for the strings this program
    handles. */
module Text {

  datatype Option<+T> = None | Some(value: T)

  /** File contents: the bytes a MIME part decodes to. */
  type Bytes = seq<bv8>

  /** `\d` restricted to the ASCII digits. */
  predicate IsDigit(c: char)
  {
    '0' <= c <= '9'
  }

  /** `\s` in a str pattern: the characters for which Python's
      `str.isspace` holds. */
  predicate IsSpace(c: char)
  {
    || ('\t' <= c <= '\r')
    || ('\U{1C}' <= c <= '\U{1F}')
    || c == ' ' || c == '\U{85}' || c == '\U{A0}' || c == '\U{1680}'
    || ('\U{2000}' <= c <= '\U{200A}')
    || c == '\U{2028}' || c == '\U{2029}' || c == '\U{202F}'
    || c == '\U{205F}' || c == '\U{3000}'
  }

  /** `\w` in a str pattern, exact up to U+00FF (Python's `str.isalnum`
      or the underscore); characters above U+00FF count as non-word. */
  predicate IsWordChar(c: char)
  {
    || IsDigit(c) || ('A' <= c <= 'Z') || ('a' <= c <= 'z') || c == '_'
    || c == '\U{AA}' || c == '\U{B2}' || c == '\U{B3}' || c == '\U{B5}'
    || c == '\U{B9}' || c == '\U{BA}' || ('\U{BC}' <= c <= '\U{BE}')
    || ('\U{C0}' <= c <= '\U{D6}') || ('\U{D8}' <= c <= '\U{F6}')
    || ('\U{F8}' <= c <= '\U{FF}')
  }

  /** `needle` occurs in `hay` starting at position `i`. */
  predicate OccursAt(hay: string, needle: string, i: nat)
  {
    i + |needle| <= |hay| && hay[i..i + |needle|] == needle
  }

  /** Python's `needle in hay` for two strings. */
  predicate Contains(hay: string, needle: string)
  {
    exists i: nat :: i <= |hay| && OccursAt(hay, needle, i)
  }

  /** Python's `posixpath.join(a, b)` for two components. */
  function Join(a: string, b: string): (p: string)
    ensures |b| > 0 && b[0] == '/' ==> p == b
    ensures (|b| == 0 || b[0] != '/') ==> |a| + |b| <= |p|
    ensures (|b| == 0 || b[0] != '/') ==> p[..|a|] == a && p[|p| - |b|..] == b
    ensures |p| <= |a| + 1 + |b|
    ensures (|b| == 0 || b[0] != '/') ==> (|p| == |a| + |b| + 1 <==> a != [] && a[|a| - 1] != '/')
    ensures (|b| == 0 || b[0] != '/') && |p| == |a| + |b| + 1 ==> p[|a|] == '/'
  {
    if |b| > 0 && b[0] == '/' then b
    else if a == [] || a[|a| - 1] == '/' then a + b
    else a + "/" + b
  }
}
