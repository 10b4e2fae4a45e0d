/** The small part of JavaScript's value and string semantics the components
    rely on: optional values, truthiness, `trim`, `\s`, `includes` and
    ASCII case mapping. Strings are sequences of characters. */
module JsText {

  /** `undefined`/`null` versus a present value. */
  datatype Option<+T> = None | Some(value: T)

  /** A number field read in a boolean position (`!x`, `x ? a : b`): absent and 0 are falsy. */
  predicate TruthyNum(x: Option<int>) {
    x.Some? && x.value != 0
  }

  /** A string field read in a boolean position: absent and "" are falsy. */
  predicate TruthyStr(x: Option<string>) {
    x.Some? && x.value != []
  }

  /** The ECMAScript WhiteSpace and LineTerminator code points: what `trim` strips
      and what the regular-expression class `\s` matches. */
  predicate IsSpace(c: char) {
    || c == '\t' || c == '\n' || c == '\U{B}' || c == '\U{C}' || c == '\r' || c == ' '
    || c == '\U{A0}' || c == '\U{1680}' || ('\U{2000}' <= c <= '\U{200A}')
    || c == '\U{2028}' || c == '\U{2029}' || c == '\U{202F}' || c == '\U{205F}'
    || c == '\U{3000}' || c == '\U{FEFF}'
  }

  predicate AllSpace(s: string) {
    forall i | 0 <= i < |s| :: IsSpace(s[i])
  }

  /** Neither starts nor ends with white space. */
  predicate IsTrimmed(s: string) {
    s == [] || (!IsSpace(s[0]) && !IsSpace(s[|s| - 1]))
  }

  /** The length of the longest all-white-space prefix of `s`. */
  function LeadingSpace(s: string): (n: nat)
    ensures n <= |s| && AllSpace(s[..n])
    ensures n == |s| || !IsSpace(s[n])
  {
    if s == [] || !IsSpace(s[0]) then 0
    else
      var n := LeadingSpace(s[1..]);
      assert forall i | 1 <= i < 1 + n :: s[i] == s[1..][..n][i - 1];
      1 + n
  }

  /** Where the longest all-white-space suffix of `s` begins. */
  function TrailingSpaceStart(s: string): (n: nat)
    ensures n <= |s| && AllSpace(s[n..])
    ensures n == 0 || !IsSpace(s[n - 1])
  {
    if s == [] || !IsSpace(s[|s| - 1]) then |s|
    else
      var n := TrailingSpaceStart(s[..|s| - 1]);
      assert forall i | n <= i < |s| - 1 :: s[i] == s[..|s| - 1][n..][i - n];
      n
  }

  /** Removes the longest all-white-space prefix (`^\s*`, greedy). */
  function TrimStart(s: string): (r: string)
    ensures |r| <= |s|
    ensures r == [] || !IsSpace(r[0])
  {
    s[LeadingSpace(s)..]
  }

  /** Removes the longest all-white-space suffix (`\s*$`, leftmost match). */
  function TrimEnd(s: string): (r: string)
    ensures |r| <= |s|
    ensures r == [] || !IsSpace(r[|r| - 1])
  {
    s[..TrailingSpaceStart(s)]
  }

  /** `String.prototype.trim`. */
  function Trim(s: string): (r: string)
    ensures IsTrimmed(r)
    ensures |r| <= |s|
  {
    var t := TrimStart(s);
    var r := TrimEnd(t);
    assert r != [] ==> r[0] == t[0];
    r
  }

  /** `trim` keeps exactly the part of `s` between its leading and its trailing white
      space: `s` is that part framed by two all-white-space runs. */
  lemma TrimFrames(s: string)
    ensures var r := Trim(s);
      exists i | 0 <= i <= |s| - |r| :: r == s[i..i + |r|] && AllSpace(s[..i]) && AllSpace(s[i + |r|..])
  {
    var t := TrimStart(s);
    var r := TrimEnd(t);
    var i := |s| - |t|;
    assert r == s[i..i + |r|];
    assert s[i + |r|..] == t[|r|..];
  }

  /** `!s.trim()` holds exactly for strings made only of white space. */
  lemma TrimEmptyIffAllSpace(s: string)
    ensures Trim(s) == [] <==> AllSpace(s)
  {
    var t := TrimStart(s);
    assert t != [] ==> t[0] == s[|s| - |t|];
    assert t[0..] == t;
  }

  /** Trimming a string that has no white space at either end changes nothing. */
  lemma TrimOfTrimmed(s: string)
    requires IsTrimmed(s)
    ensures Trim(s) == s
  {
  }

  /** `sub` occurs in `s` starting at index `i`. */
  predicate OccursAt(s: string, sub: string, i: nat) {
    i + |sub| <= |s| && s[i..i + |sub|] == sub
  }

  /** `phrase` occurs somewhere in `s`. */
  ghost predicate Mentions(s: string, phrase: string) {
    exists i: nat :: OccursAt(s, phrase, i)
  }

  /** `String.prototype.includes`. */
  function Includes(s: string, sub: string): (b: bool)
    ensures b <==> Mentions(s, sub)
    decreases |s|
  {
    if |sub| > |s| then
      assert forall i: nat :: !OccursAt(s, sub, i);
      false
    else if s[..|sub|] == sub then
      assert OccursAt(s, sub, 0);
      true
    else
      var b := Includes(s[1..], sub);
      assert forall i: nat :: OccursAt(s[1..], sub, i) <==> OccursAt(s, sub, i + 1) by {
        forall i: nat ensures OccursAt(s[1..], sub, i) <==> OccursAt(s, sub, i + 1) {
          if i + |sub| <= |s[1..]| {
            assert s[1..][i..i + |sub|] == s[i + 1..i + 1 + |sub|];
          }
        }
      }
      assert b ==> exists i: nat :: OccursAt(s, sub, i) by {
        if b {
          var i: nat :| OccursAt(s[1..], sub, i);
          assert OccursAt(s, sub, i + 1);
        }
      }
      assert (exists i: nat :: OccursAt(s, sub, i)) ==> b by {
        if exists i: nat :: OccursAt(s, sub, i) {
          var i: nat :| OccursAt(s, sub, i);
          assert i != 0;
          assert OccursAt(s[1..], sub, i - 1);
        }
      }
      b
  }

  /** ASCII case folding, as a case-insensitive regular expression without the
      `u` flag applies it to an ASCII pattern. */
  function LowerChar(c: char): char {
    if 'A' <= c <= 'Z' then (c as int + 32) as char else c
  }

  function UpperChar(c: char): char {
    if 'a' <= c <= 'z' then (c as int - 32) as char else c
  }

  /** `toUpperCase`, restricted to the ASCII letters. */
  function ToUpper(s: string): (r: string)
    ensures |r| == |s|
    ensures forall i | 0 <= i < |s| :: r[i] == UpperChar(s[i])
  {
    seq(|s|, i requires 0 <= i < |s| => UpperChar(s[i]))
  }

  predicate EqualsIgnoreCase(a: string, b: string) {
    |a| == |b| && forall i | 0 <= i < |a| :: LowerChar(a[i]) == LowerChar(b[i])
  }

  predicate StartsWithIgnoreCase(s: string, p: string) {
    |p| <= |s| && EqualsIgnoreCase(s[..|p|], p)
  }
}
