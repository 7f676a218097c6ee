/** Small value-level helpers shared by the STIX import model: an optional value,
    Python's `strip()` and Python's substring test `needle in hay`. */
module Common {

  datatype Option<+T> = None | Some(value: T)

  /** The value under `k`, or `default` when `k` is absent (Python's `dict.get`). */
  function Get<K, V>(m: map<K, V>, k: K, default: V): V
  {
    if k in m then m[k] else default
  }

  /** Which `strip()`: that of a byte string (`str(value).strip()`) or that of the value itself,
      a unicode string. */
  datatype Whitespace = ByteSpace | UnicodeSpace

  /** The characters each `strip()` of Python 2.7 removes: a byte string's are space, \t, \n,
      \v, \f and \r; a unicode string's are those of `IsUnicodeSpace`. */
  predicate IsSpace(ws: Whitespace, c: char)
  {
    match ws
    case ByteSpace => c == ' ' || '\t' <= c <= '\r'
    case UnicodeSpace => IsUnicodeSpace(c)
  }

  /** `unicode.isspace()` of Python 2.7, whose character data is that of Unicode 5.2. */
  predicate IsUnicodeSpace(c: char)
  {
    c == ' ' || '\t' <= c <= '\r' || '\U{1C}' <= c <= '\U{1F}' || c == '\U{85}' || c == '\U{A0}' ||
    c == '\U{1680}' || c == '\U{180E}' || '\U{2000}' <= c <= '\U{200A}' || c == '\U{2028}' ||
    c == '\U{2029}' || c == '\U{202F}' || c == '\U{205F}' || c == '\U{3000}'
  }

  function StripLeft(ws: Whitespace, s: string): (r: string)
    ensures |r| <= |s| && r == s[|s| - |r|..]
    ensures forall i :: 0 <= i < |s| - |r| ==> IsSpace(ws, s[i])
    ensures r == [] || !IsSpace(ws, r[0])
    ensures s == [] || !IsSpace(ws, s[0]) ==> r == s
  {
    if s != [] && IsSpace(ws, s[0]) then StripLeft(ws, s[1..]) else s
  }

  function StripRight(ws: Whitespace, s: string): (r: string)
    ensures |r| <= |s| && r == s[..|r|]
    ensures forall i :: |r| <= i < |s| ==> IsSpace(ws, s[i])
    ensures r == [] || !IsSpace(ws, r[|r| - 1])
    ensures s == [] || !IsSpace(ws, s[|s| - 1]) ==> r == s
  {
    if s != [] && IsSpace(ws, s[|s| - 1]) then StripRight(ws, s[..|s| - 1]) else s
  }

  /** Python's `s.strip()`: the slice of `s` left once its leading and trailing whitespace are
      removed. */
  function Strip(ws: Whitespace, s: string): (r: string)
    ensures exists i :: StrippedAt(ws, s, r, i)
    ensures r == [] || (!IsSpace(ws, r[0]) && !IsSpace(ws, r[|r| - 1]))
    ensures (forall i :: 0 <= i < |s| ==> !IsSpace(ws, s[i])) ==> r == s
  {
    var l := StripLeft(ws, s);
    var r := StripRight(ws, l);
    SliceBetweenSpaces(ws, s, l, r);
    r
  }

  /** Whitespace removed from the left of `s` gives `l`, and then from the right of `l`
      gives `r`. */
  lemma SliceBetweenSpaces(ws: Whitespace, s: string, l: string, r: string)
    requires |l| <= |s| && l == s[|s| - |l|..] && forall k :: 0 <= k < |s| - |l| ==> IsSpace(ws, s[k])
    requires |r| <= |l| && r == l[..|r|] && forall j :: |r| <= j < |l| ==> IsSpace(ws, l[j])
    ensures StrippedAt(ws, s, r, |s| - |l|)
  {
    var i := |s| - |l|;
    forall k | i + |r| <= k < |s|
      ensures IsSpace(ws, s[k])
    {
      assert s[k] == l[k - i];
    }
  }

  /** `r` is the slice of `s` at `i`, and everything around it is whitespace. */
  predicate StrippedAt(ws: Whitespace, s: string, r: string, i: int)
  {
    0 <= i <= |s| - |r| && r == s[i..i + |r|] &&
    (forall k :: 0 <= k < i ==> IsSpace(ws, s[k])) &&
    (forall k :: i + |r| <= k < |s| ==> IsSpace(ws, s[k]))
  }

  predicate IsPrefix(p: string, s: string)
  {
    |p| <= |s| && s[..|p|] == p
  }

  /** Python's `needle in hay` on strings: `needle` occurs in `hay` as a contiguous block. */
  predicate Contains(hay: string, needle: string)
  {
    exists i :: 0 <= i <= |hay| && IsPrefix(needle, hay[i..])
  }
}
