/** White space, trimming and lower-casing as the JavaScript client and the Python backend perform them. */
module Text {
  import opened Options

  /** White space as JavaScript's `String.prototype.trim` and the regular-expression class `\s` see it
      (the ECMAScript WhiteSpace and LineTerminator characters). */
  predicate IsJsSpace(c: char) {
    || c == '\t' || c == '\n' || c == '\U{B}' || c == '\U{C}' || c == '\r' || c == ' '
    || c == '\U{A0}' || c == '\U{1680}' || ('\U{2000}' <= c <= '\U{200A}')
    || c == '\U{2028}' || c == '\U{2029}' || c == '\U{202F}' || c == '\U{205F}'
    || c == '\U{3000}' || c == '\U{FEFF}'
  }

  /** White space as Python's `str.isspace` (and so `str.strip()` without arguments) sees it. */
  predicate IsPySpace(c: char) {
    || ('\t' <= c <= '\r') || ('\U{1C}' <= c <= ' ') || c == '\U{85}' || c == '\U{A0}'
    || c == '\U{1680}' || ('\U{2000}' <= c <= '\U{200A}') || c == '\U{2028}' || c == '\U{2029}'
    || c == '\U{202F}' || c == '\U{205F}' || c == '\U{3000}'
  }

  /** `s` with its leading `sp` characters removed: a suffix of `s`, all of whose dropped characters are
      `sp` and which does not itself start with one. */
  function TrimStart(s: string, sp: char -> bool): (r: string)
    ensures |r| <= |s| && r == s[|s| - |r|..]
    ensures forall k :: 0 <= k < |s| - |r| ==> sp(s[k])
    ensures r != [] ==> !sp(r[0])
    decreases |s|
  {
    if s != [] && sp(s[0]) then TrimStart(s[1..], sp) else s
  }

  /** `s` with its trailing `sp` characters removed: a prefix of `s`, all of whose dropped characters are
      `sp` and which does not itself end with one. */
  function TrimEnd(s: string, sp: char -> bool): (r: string)
    ensures |r| <= |s| && r == s[..|r|]
    ensures forall k :: |r| <= k < |s| ==> sp(s[k])
    ensures r != [] ==> !sp(r[|r| - 1])
    decreases |s|
  {
    if s != [] && sp(s[|s| - 1]) then TrimEnd(s[..|s| - 1], sp) else s
  }

  /** `s` without leading and trailing `sp` characters: the result neither starts nor ends with one. */
  function Trim(s: string, sp: char -> bool): (r: string)
    ensures |r| <= |s|
    ensures r != [] ==> !sp(r[0]) && !sp(r[|r| - 1])
  {
    var t := TrimStart(s, sp);
    var r := TrimEnd(t, sp);
    assert r != [] ==> r[0] == t[0];
    r
  }

  /** `r` is the piece `s[i..i + |r|]` of `s`, and every character of `s` before or after that piece is
      an `sp` character. */
  predicate TrimmedAt(s: string, r: string, sp: char -> bool, i: nat) {
    i + |r| <= |s| && r == s[i..i + |r|] &&
    (forall k :: 0 <= k < i ==> sp(s[k])) && (forall k :: i + |r| <= k < |s| ==> sp(s[k]))
  }

  /** The trimmed string is a contiguous piece of `s`, and every character of `s` outside that piece is
      an `sp` character: trimming removes white space at the ends and nothing else. */
  lemma TrimIsSlice(s: string, sp: char -> bool)
    ensures exists i :: TrimmedAt(s, Trim(s, sp), sp, i)
  {
    var t := TrimStart(s, sp);
    var i := |s| - |t|;
    PrefixOfSuffix(s, t, TrimEnd(t, sp), i, sp);
    assert TrimmedAt(s, Trim(s, sp), sp, i);
  }

  lemma PrefixOfSuffix(s: string, t: string, r: string, i: nat, sp: char -> bool)
    requires i <= |s| && t == s[i..] && |r| <= |t| && r == t[..|r|]
    requires forall k :: |r| <= k < |t| ==> sp(t[k])
    ensures r == s[i..i + |r|]
    ensures forall k :: i + |r| <= k < |s| ==> sp(s[k])
  {
    forall k | i + |r| <= k < |s| ensures sp(s[k]) {
      assert s[k] == t[k - i];
    }
  }

  /** A string that neither starts nor ends with an `sp` character is its own trimmed form. */
  lemma TrimNoop(s: string, sp: char -> bool)
    requires s != [] ==> !sp(s[0]) && !sp(s[|s| - 1])
    ensures Trim(s, sp) == s
  {
    assert TrimStart(s, sp) == s;
    assert TrimEnd(s, sp) == s;
  }

  /** Trimming a trimmed string changes nothing. */
  lemma TrimIdempotent(s: string, sp: char -> bool)
    ensures Trim(Trim(s, sp), sp) == Trim(s, sp)
  {
    TrimNoop(Trim(s, sp), sp);
  }

  /** JavaScript's `s.trim()`: the piece of `s` left after removing JavaScript white space at both ends,
      which neither starts nor ends with white space. */
  function JsTrim(s: string): (r: string)
    ensures exists i :: TrimmedAt(s, r, IsJsSpace, i)
    ensures r != [] ==> !IsJsSpace(r[0]) && !IsJsSpace(r[|r| - 1])
  {
    TrimIsSlice(s, IsJsSpace);
    Trim(s, IsJsSpace)
  }

  /** Python's `s.strip()`: the piece of `s` left after removing Python white space at both ends, which
      neither starts nor ends with white space. */
  function PyStrip(s: string): (r: string)
    ensures exists i :: TrimmedAt(s, r, IsPySpace, i)
    ensures r != [] ==> !IsPySpace(r[0]) && !IsPySpace(r[|r| - 1])
  {
    TrimIsSlice(s, IsPySpace);
    Trim(s, IsPySpace)
  }

  /** The lower-case form of an ASCII capital letter; every other character is kept. */
  function LowerChar(c: char): char {
    if 'A' <= c <= 'Z' then (c as int + 32) as char else c
  }

  /** `s.toLowerCase()` / `s.lower()` restricted to ASCII letters: same length, every capital replaced
      by its small letter, every other character kept, no capital left. */
  function AsciiLower(s: string): (r: string)
    ensures |r| == |s|
    ensures forall i :: 0 <= i < |s| ==> !('A' <= r[i] <= 'Z')
    ensures forall i :: 0 <= i < |s| && !('A' <= s[i] <= 'Z') ==> r[i] == s[i]
    ensures forall i :: 0 <= i < |s| && 'A' <= s[i] <= 'Z' ==> r[i] as int == s[i] as int + 32
  {
    seq(|s|, i requires 0 <= i < |s| => LowerChar(s[i]))
  }

  /** Lower-casing a lower-cased string changes nothing. */
  lemma AsciiLowerIdempotent(s: string)
    ensures AsciiLower(AsciiLower(s)) == AsciiLower(s)
  {
  }

  /** A string without ASCII capitals is its own lower-case form. */
  lemma AsciiLowerOfLower(s: string)
    requires forall i :: 0 <= i < |s| ==> !('A' <= s[i] <= 'Z')
    ensures AsciiLower(s) == s
  {
  }

  /** The position of the first `c` in `s`, if any. */
  function FirstIndexOf(s: string, c: char): (r: Option<nat>)
    ensures r.Some? ==> r.value < |s| && s[r.value] == c && forall k :: 0 <= k < r.value ==> s[k] != c
    ensures r.None? ==> forall k :: 0 <= k < |s| ==> s[k] != c
    decreases |s|
  {
    if s == [] then None
    else if s[0] == c then Some(0)
    else match FirstIndexOf(s[1..], c)
      case None => None
      case Some(i) => Some(i + 1)
  }

  /** The position of the last `c` in `s`, if any. */
  function LastIndexOf(s: string, c: char): (r: Option<nat>)
    ensures r.Some? ==> r.value < |s| && s[r.value] == c && forall k :: r.value < k < |s| ==> s[k] != c
    ensures r.None? ==> forall k :: 0 <= k < |s| ==> s[k] != c
    decreases |s|
  {
    if s == [] then None
    else if s[|s| - 1] == c then Some(|s| - 1)
    else LastIndexOf(s[..|s| - 1], c)
  }
}
