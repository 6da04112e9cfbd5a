/**
 * The JavaScript string operations the handlers rely on: `trim`, `toLowerCase`, substring search,
 * and the regular expressions `/import\s+\w+/`, `/error|exception|raise/i` and `/language-(\w+)/`.
 * Every computable scanner here is tied by its contract to a declarative description of a match.
 */
module JsStrings {

  /** ECMAScript WhiteSpace and LineTerminator: what `\s` matches and what `trim` removes. */
  predicate IsSpace(c: char) {
    c == ' ' || c == '\t' || c == '\n' || c == '\U{000B}' || c == '\U{000C}' || c == '\r'
    || c == '\U{00A0}' || c == '\U{1680}' || ('\U{2000}' <= c <= '\U{200A}')
    || c == '\U{2028}' || c == '\U{2029}' || c == '\U{202F}' || c == '\U{205F}'
    || c == '\U{3000}' || c == '\U{FEFF}'
  }

  /** What `\w` matches outside unicode mode: `[A-Za-z0-9_]`. */
  predicate IsWordChar(c: char) {
    ('a' <= c <= 'z') || ('A' <= c <= 'Z') || ('0' <= c <= '9') || c == '_'
  }

  predicate IsBlank(s: string) {
    forall i :: 0 <= i < |s| ==> IsSpace(s[i])
  }

  /** ASCII lower-casing of one character. */
  function LowerChar(c: char): (d: char)
    ensures 'A' <= c <= 'Z' ==> d as int == c as int + 32
    ensures !('A' <= c <= 'Z') ==> d == c
  {
    if 'A' <= c <= 'Z' then (c as int + 32) as char else c
  }

  /** `s.toLowerCase()`, folding the ASCII letters. */
  function ToLower(s: string): (r: string)
    ensures |r| == |s|
    ensures forall i :: 0 <= i < |s| ==> r[i] == LowerChar(s[i])
  {
    if s == [] then [] else [LowerChar(s[0])] + ToLower(s[1..])
  }

  /** The first position at or after `i` that does not hold white space, or the end. */
  function SkipSpaces(s: string, i: nat): (a: nat)
    requires i <= |s|
    ensures i <= a <= |s|
    ensures forall k :: i <= k < a ==> IsSpace(s[k])
    ensures a == |s| || !IsSpace(s[a])
    decreases |s| - i
  {
    if i < |s| && IsSpace(s[i]) then SkipSpaces(s, i + 1) else i
  }

  /** The position, no earlier than `a`, from which only white space lies before `j`. */
  function SkipSpacesBack(s: string, a: nat, j: nat): (b: nat)
    requires a <= j <= |s|
    ensures a <= b <= j
    ensures forall k :: b <= k < j ==> IsSpace(s[k])
    ensures b == a || !IsSpace(s[b - 1])
    decreases j
  {
    if a < j && IsSpace(s[j - 1]) then SkipSpacesBack(s, a, j - 1) else j
  }

  /** `r` is the slice of `s` that starts at `a`, and only white space lies around it. */
  predicate IsCoreAt(s: string, r: string, a: int) {
    0 <= a <= |s| - |r| && r == s[a..a + |r|]
    && (forall i :: 0 <= i < a ==> IsSpace(s[i]))
    && (forall i :: a + |r| <= i < |s| ==> IsSpace(s[i]))
  }

  /** `s.trim()`: the slice of `s` with only white space around it and none at its ends. */
  function Trim(s: string): (r: string)
    ensures exists a :: IsCoreAt(s, r, a)
    ensures r == [] || (!IsSpace(r[0]) && !IsSpace(r[|r| - 1]))
    ensures r == [] <==> IsBlank(s)
  {
    var a := SkipSpaces(s, 0);
    var b := SkipSpacesBack(s, a, |s|);
    var r := s[a..b];
    assert IsCoreAt(s, r, a);
    if a == b then r
    else
      assert r[0] == s[a] && r[|r| - 1] == s[b - 1];
      r
  }

  lemma TrimIdempotent(s: string)
    ensures Trim(Trim(s)) == Trim(s)
  {
    var r := Trim(s);
    assert SkipSpaces(r, 0) == 0;
    assert SkipSpacesBack(r, 0, |r|) == |r|;
    assert r[0..|r|] == r;
  }

  predicate OccursAt(s: string, p: string, i: int) {
    0 <= i && i + |p| <= |s| && s[i..i + |p|] == p
  }

  predicate StartsWith(s: string, p: string) {
    |p| <= |s| && s[..|p|] == p
  }

  predicate EndsWith(s: string, p: string) {
    |p| <= |s| && s[|s| - |p|..] == p
  }

  lemma ConcatStartsWith(a: string, b: string)
    ensures StartsWith(a + b, a)
  {
    assert (a + b)[..|a|] == a;
  }

  lemma ConcatEndsWith(a: string, b: string)
    ensures EndsWith(a + b, b)
  {
    assert (a + b)[|a|..] == b;
  }

  /** `s.includes(p)`: some position of `s` starts an occurrence of `p`. */
  function Contains(s: string, p: string): (b: bool)
    ensures b <==> exists i :: OccursAt(s, p, i)
  {
    if StartsWith(s, p) then
      assert OccursAt(s, p, 0);
      true
    else if s == [] then
      assert forall i :: !OccursAt(s, p, i);
      false
    else
      var rest := Contains(s[1..], p);
      assert forall i :: 1 <= i ==> (OccursAt(s, p, i) <==> OccursAt(s[1..], p, i - 1));
      assert !OccursAt(s, p, 0);
      if rest then
        ghost var j :| OccursAt(s[1..], p, j);
        assert OccursAt(s, p, j + 1);
        true
      else
        false
  }

  /** `w` occurs in `s` at `i` when ASCII case is ignored (`w` itself is lower case). */
  ghost predicate OccursFoldedAt(s: string, w: string, i: int) {
    0 <= i && i + |w| <= |s| && forall k :: 0 <= k < |w| ==> LowerChar(s[i + k]) == w[k]
  }

  /** Case-insensitive search as the `i` flag does it for an ASCII pattern. */
  function ContainsFolded(s: string, w: string): (b: bool)
    ensures b <==> exists i :: OccursFoldedAt(s, w, i)
  {
    var l := ToLower(s);
    assert forall i :: OccursAt(l, w, i) <==> OccursFoldedAt(s, w, i) by {
      forall i ensures OccursAt(l, w, i) <==> OccursFoldedAt(s, w, i) {
        if 0 <= i && i + |w| <= |s| {
          ghost var window := l[i..i + |w|];
          assert forall k :: 0 <= k < |w| ==> window[k] == LowerChar(s[i + k]);
        }
      }
    }
    Contains(l, w)
  }

  const ErrorWords: set<string> := {"error", "exception", "raise"}

  /** `/error|exception|raise/i.test(s)`: one of the three words occurs, ignoring ASCII case. */
  function MentionsError(s: string): (b: bool)
    ensures b <==> exists w, i :: w in ErrorWords && OccursFoldedAt(s, w, i)
  {
    var e, x, r := ContainsFolded(s, "error"), ContainsFolded(s, "exception"), ContainsFolded(s, "raise");
    assert ErrorWords == {"error", "exception", "raise"};
    e || x || r
  }

  /** `/^\s*\w/` at position `j`: white space up to `m`, then a word character at `m`. */
  ghost predicate WordAfterSpacesAt(s: string, j: int, m: int) {
    0 <= j <= m < |s| && (forall k :: j <= k < m ==> IsSpace(s[k])) && IsWordChar(s[m])
  }

  function WordAfterSpaces(s: string, j: nat): (b: bool)
    requires j <= |s|
    ensures b <==> exists m :: WordAfterSpacesAt(s, j, m)
    decreases |s| - j
  {
    if j == |s| then
      false
    else if IsWordChar(s[j]) then
      assert WordAfterSpacesAt(s, j, j);
      true
    else if IsSpace(s[j]) then
      assert forall m :: WordAfterSpacesAt(s, j, m) ==> WordAfterSpacesAt(s, j + 1, m) by {
        forall m | WordAfterSpacesAt(s, j, m) ensures WordAfterSpacesAt(s, j + 1, m) {
          assert m != j;
        }
      }
      if WordAfterSpaces(s, j + 1) then
        ghost var m :| WordAfterSpacesAt(s, j + 1, m);
        assert WordAfterSpacesAt(s, j, m);
        true
      else
        false
    else
      assert forall m :: !WordAfterSpacesAt(s, j, m);
      false
  }

  /** A match of `/import\s+\w+/` that starts at `i` and reaches its first word character at `m`. */
  ghost predicate ImportMatchAt(s: string, i: int, m: int) {
    OccursAt(s, "import", i) && i + 7 <= m && WordAfterSpacesAt(s, i + 6, m)
  }

  function ImportAt(s: string, i: nat): (b: bool)
    requires i <= |s|
    ensures b <==> exists m :: ImportMatchAt(s, i, m)
  {
    if OccursAt(s, "import", i) && i + 6 < |s| && IsSpace(s[i + 6]) then
      assert forall m :: ImportMatchAt(s, i, m) ==> WordAfterSpacesAt(s, i + 7, m);
      if WordAfterSpaces(s, i + 7) then
        ghost var m :| WordAfterSpacesAt(s, i + 7, m);
        assert WordAfterSpacesAt(s, i + 6, m);
        assert ImportMatchAt(s, i, m);
        true
      else
        false
    else
      assert forall m :: !ImportMatchAt(s, i, m);
      false
  }

  function ImportFrom(s: string, i: nat): (b: bool)
    requires i <= |s|
    ensures b <==> exists k, m :: i <= k && ImportMatchAt(s, k, m)
    decreases |s| - i
  {
    if i == |s| then
      assert forall k, m :: i <= k && ImportMatchAt(s, k, m) ==> false;
      false
    else
      ImportAt(s, i) || ImportFrom(s, i + 1)
  }

  /** `/import\s+\w+/.test(s)`. */
  function MatchesImport(s: string): (b: bool)
    ensures b <==> exists k, m :: ImportMatchAt(s, k, m)
  {
    ImportFrom(s, 0)
  }

  /** The greedy `\w+` run that starts at `j`. */
  function WordRun(s: string, j: nat): (r: string)
    requires j <= |s|
    ensures j + |r| <= |s| && r == s[j..j + |r|]
    ensures forall k :: 0 <= k < |r| ==> IsWordChar(r[k])
    ensures j + |r| == |s| || !IsWordChar(s[j + |r|])
    decreases |s| - j
  {
    if j < |s| && IsWordChar(s[j]) then [s[j]] + WordRun(s, j + 1) else []
  }
}
