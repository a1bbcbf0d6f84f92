/**
 * String primitives the shop code takes from its runtimes: JavaScript's `trim`,
 * `toLowerCase`, `toUpperCase`, `includes`, `slice(-n)` and the `\s` class, and
 * .NET's `string.IsNullOrWhiteSpace`. Strings are sequences of characters.
 */
module Text {
  import opened Wrappers

  /** The ECMAScript WhiteSpace and LineTerminator code points: what `\s` matches and `trim()` removes. */
  predicate IsJsWhitespace(c: char) {
    || c == '\t' || c == '\n' || c == '\U{000B}' || c == '\U{000C}' || c == '\r'
    || c == ' ' || c == '\U{00A0}' || c == '\U{1680}'
    || ('\U{2000}' <= c <= '\U{200A}')
    || c == '\U{2028}' || c == '\U{2029}' || c == '\U{202F}' || c == '\U{205F}'
    || c == '\U{3000}' || c == '\U{FEFF}'
  }

  /** .NET `char.IsWhiteSpace`: the space separators, U+0009..U+000D, U+0085, and the line and paragraph separators. */
  predicate IsDotNetWhitespace(c: char) {
    || ('\t' <= c <= '\r') || c == ' ' || c == '\U{0085}' || c == '\U{00A0}' || c == '\U{1680}'
    || ('\U{2000}' <= c <= '\U{200A}')
    || c == '\U{2028}' || c == '\U{2029}' || c == '\U{202F}' || c == '\U{205F}' || c == '\U{3000}'
  }

  /** Every character of `s` is JavaScript whitespace (the empty string included). */
  predicate IsJsBlank(s: string) {
    forall i | 0 <= i < |s| :: IsJsWhitespace(s[i])
  }

  /** .NET `string.IsNullOrWhiteSpace` on a nullable string. */
  predicate IsNullOrWhiteSpace(s: Option<string>) {
    match s
    case None => true
    case Some(t) => forall i | 0 <= i < |t| :: IsDotNetWhitespace(t[i])
  }

  /** Drops the leading whitespace: the result is a suffix of `s` that starts with a non-blank. */
  function TrimStart(s: string): (r: string)
    ensures |r| <= |s| && r == s[|s| - |r|..]
    ensures forall i | 0 <= i < |s| - |r| :: IsJsWhitespace(s[i])
    ensures r == [] || !IsJsWhitespace(r[0])
  {
    if s != [] && IsJsWhitespace(s[0]) then TrimStart(s[1..]) else s
  }

  /** Drops the trailing whitespace: the result is a prefix of `s` that ends with a non-blank. */
  function TrimEnd(s: string): (r: string)
    ensures |r| <= |s| && r == s[..|r|]
    ensures forall i | |r| <= i < |s| :: IsJsWhitespace(s[i])
    ensures r == [] || !IsJsWhitespace(r[|r| - 1])
  {
    if s != [] && IsJsWhitespace(s[|s| - 1]) then TrimEnd(s[..|s| - 1]) else s
  }

  /** Neither the first nor the last character is whitespace. */
  predicate HasNoOuterWhitespace(s: string) {
    s == [] || (!IsJsWhitespace(s[0]) && !IsJsWhitespace(s[|s| - 1]))
  }

  /** `String.prototype.trim`. */
  function Trim(s: string): (r: string)
    ensures |r| <= |s|
    ensures HasNoOuterWhitespace(r)
  {
    TrimEnd(TrimStart(s))
  }

  /** A string trims to "" exactly when it is all whitespace: the falsy test `!s.trim()`. */
  lemma TrimEmptyIffBlank(s: string)
    ensures Trim(s) == [] <==> IsJsBlank(s)
  {
    if Trim(s) == [] {
      assert TrimStart(s) == [];
    }
  }

  /** Trimming twice is trimming once. */
  lemma TrimIdempotent(s: string)
    ensures Trim(Trim(s)) == Trim(s)
  {
    var r := Trim(s);
    assert r == [] || !IsJsWhitespace(r[0]);
    assert TrimStart(r) == r;
    assert r == [] || !IsJsWhitespace(r[|r| - 1]);
  }

  /** A string without outer whitespace is its own trim. */
  lemma TrimKeepsTrimmed(s: string)
    requires HasNoOuterWhitespace(s)
    ensures Trim(s) == s
  {
    assert TrimStart(s) == s;
  }

  /** Lower-casing keeps a string free of outer whitespace: only letters change. */
  lemma LowerKeepsNoOuterWhitespace(s: string)
    requires HasNoOuterWhitespace(s)
    ensures HasNoOuterWhitespace(ToLower(s))
  {
  }

  /** The ASCII part of `toLowerCase` on one character. */
  function LowerChar(c: char): (d: char)
    ensures !('A' <= d <= 'Z')
    ensures 'A' <= c <= 'Z' || d == c
  {
    if 'A' <= c <= 'Z' then (c as int - 'A' as int + 'a' as int) as char else c
  }

  /** The ASCII part of `toUpperCase` on one character. */
  function UpperChar(c: char): (d: char)
    ensures !('a' <= d <= 'z')
    ensures 'a' <= c <= 'z' || d == c
  {
    if 'a' <= c <= 'z' then (c as int - 'a' as int + 'A' as int) as char else c
  }

  /** `toLowerCase`, restricted to ASCII letters. */
  function ToLower(s: string): (r: string)
    ensures |r| == |s|
    ensures forall i | 0 <= i < |s| :: r[i] == LowerChar(s[i])
  {
    seq(|s|, i requires 0 <= i < |s| => LowerChar(s[i]))
  }

  /** `toUpperCase`, restricted to ASCII letters. */
  function ToUpper(s: string): (r: string)
    ensures |r| == |s|
    ensures forall i | 0 <= i < |s| :: r[i] == UpperChar(s[i])
  {
    seq(|s|, i requires 0 <= i < |s| => UpperChar(s[i]))
  }

  /** Lower-casing is idempotent and leaves no upper-case ASCII letter. */
  lemma ToLowerIdempotent(s: string)
    ensures ToLower(ToLower(s)) == ToLower(s)
    ensures forall i | 0 <= i < |s| :: !('A' <= ToLower(s)[i] <= 'Z')
  {
  }

  /** `hay.includes(needle)`: `needle` occurs in `hay` as a contiguous piece. */
  predicate Includes(hay: string, needle: string) {
    exists i | 0 <= i <= |hay| - |needle| :: OccursAt(hay, needle, i)
  }

  /** `needle` sits in `hay` starting at index `i`. */
  predicate OccursAt(hay: string, needle: string, i: int)
    requires 0 <= i <= |hay| - |needle|
  {
    hay[i..i + |needle|] == needle
  }

  /** Every string includes the empty string. */
  lemma IncludesEmpty(hay: string)
    ensures Includes(hay, "")
  {
    assert OccursAt(hay, "", 0);
  }

  /** `s.slice(-n)` for a positive `n`: the last `n` characters, or all of `s` when it is shorter. */
  function SliceLast(s: string, n: nat): (r: string)
    requires n > 0
    ensures |r| == if |s| < n then |s| else n
    ensures s == s[..|s| - |r|] + r
  {
    if |s| < n then s else s[|s| - n..]
  }

  /** `[^\s@]+`: a non-empty run of characters that are neither whitespace nor '@'. */
  predicate IsEmailAtom(t: string) {
    |t| > 0 && forall i | 0 <= i < |t| :: t[i] != '@' && !IsJsWhitespace(t[i])
  }

  /**
   * The regular expression `^[^\s@]+@[^\s@]+\.[^\s@]+$` read literally: the string
   * splits as atom '@' atom '.' atom.
   */
  predicate MatchesEmailRegex(s: string) {
    exists at, dot | 0 <= at < dot < |s| ::
      && s[at] == '@' && s[dot] == '.'
      && IsEmailAtom(s[..at]) && IsEmailAtom(s[at + 1..dot]) && IsEmailAtom(s[dot + 1..])
  }

  /**
   * The same language described by its shape: no whitespace, exactly one '@' and not
   * at the start, and a '.' after it that is neither the first nor the last character
   * of the domain.
   */
  predicate HasEmailShape(s: string) {
    && (forall i | 0 <= i < |s| :: !IsJsWhitespace(s[i]))
    && exists at | 0 < at < |s| ::
         && s[at] == '@'
         && (forall j | 0 <= j < |s| && j != at :: s[j] != '@')
         && (exists dot | at + 1 < dot < |s| - 1 :: s[dot] == '.')
  }

  /** The regular expression and the shape description accept the same strings. */
  lemma EmailRegexIsShape(s: string)
    ensures MatchesEmailRegex(s) <==> HasEmailShape(s)
  {
    if MatchesEmailRegex(s) {
      RegexMatchHasShape(s);
    }
    if HasEmailShape(s) {
      ShapeMatchesRegex(s);
    }
  }

  lemma RegexMatchHasShape(s: string)
    requires MatchesEmailRegex(s)
    ensures HasEmailShape(s)
  {
    var at, dot :| 0 <= at < dot < |s| && s[at] == '@' && s[dot] == '.'
      && IsEmailAtom(s[..at]) && IsEmailAtom(s[at + 1..dot]) && IsEmailAtom(s[dot + 1..]);
    assert s[..at] == s[0..at] && s[dot + 1..] == s[dot + 1..|s|];
    SplitCharacters(s, at, dot);
    assert exists d | at + 1 < d < |s| - 1 :: s[d] == '.' by {
      assert s[dot] == '.';
    }
  }

  /** In a string split as atom '@' atom '.' atom, no character is whitespace and only the split point is '@'. */
  lemma SplitCharacters(s: string, at: int, dot: int)
    requires 0 <= at < dot < |s| && s[at] == '@' && s[dot] == '.'
    requires IsEmailAtom(s[0..at]) && IsEmailAtom(s[at + 1..dot]) && IsEmailAtom(s[dot + 1..|s|])
    ensures 0 < at && at + 1 < dot < |s| - 1
    ensures forall j | 0 <= j < |s| :: !IsJsWhitespace(s[j]) && (j != at ==> s[j] != '@')
  {
    AtomCharacters(s, 0, at);
    AtomCharacters(s, at + 1, dot);
    AtomCharacters(s, dot + 1, |s|);
    forall j | 0 <= j < |s| ensures !IsJsWhitespace(s[j]) && (j != at ==> s[j] != '@') {
      if j == at {
        assert s[j] == '@';
      } else if j == dot {
        assert s[j] == '.';
      }
    }
  }

  lemma ShapeMatchesRegex(s: string)
    requires HasEmailShape(s)
    ensures MatchesEmailRegex(s)
  {
    var at :| 0 < at < |s| && s[at] == '@'
      && (forall j | 0 <= j < |s| && j != at :: s[j] != '@')
      && (exists dot | at + 1 < dot < |s| - 1 :: s[dot] == '.');
    var dot :| at + 1 < dot < |s| - 1 && s[dot] == '.';
    CharactersMakeAtom(s, 0, at);
    CharactersMakeAtom(s, at + 1, dot);
    CharactersMakeAtom(s, dot + 1, |s|);
    assert s[..at] == s[0..at] && s[dot + 1..] == s[dot + 1..|s|];
  }

  /** The characters of an atom taken from `s[lo..hi]`, seen in `s` itself. */
  lemma AtomCharacters(s: string, lo: int, hi: int)
    requires 0 <= lo <= hi <= |s| && IsEmailAtom(s[lo..hi])
    ensures forall j | lo <= j < hi :: s[j] != '@' && !IsJsWhitespace(s[j])
  {
    forall j | lo <= j < hi ensures s[j] != '@' && !IsJsWhitespace(s[j]) {
      assert s[j] == s[lo..hi][j - lo];
    }
  }

  /** A non-empty stretch of `s` without whitespace or '@' is an atom. */
  lemma CharactersMakeAtom(s: string, lo: int, hi: int)
    requires 0 <= lo < hi <= |s|
    requires forall j | lo <= j < hi :: s[j] != '@' && !IsJsWhitespace(s[j])
    ensures IsEmailAtom(s[lo..hi])
  {
    forall i | 0 <= i < hi - lo ensures s[lo..hi][i] != '@' && !IsJsWhitespace(s[lo..hi][i]) {
      assert s[lo..hi][i] == s[lo + i];
    }
  }
}
