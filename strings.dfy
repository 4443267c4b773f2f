/**
 * The string operations the analysis and matching code relies on: `toLowerCase`,
 * `includes`, `trim` and `split('\n')`.
 */
module Strings {

  /** `toLowerCase` on one character, restricted to ASCII letters. */
  function LowerChar(c: char): char {
    if 'A' <= c <= 'Z' then (c as int - 'A' as int + 'a' as int) as char else c
  }

  /** `String.prototype.toLowerCase`, folding ASCII letters only. */
  function Lower(s: string): (r: string)
    ensures |r| == |s|
    ensures forall i :: 0 <= i < |s| ==> r[i] == LowerChar(s[i])
  {
    if s == [] then [] else [LowerChar(s[0])] + Lower(s[1..])
  }

  lemma LowerSlice(s: string, i: nat, j: nat)
    requires i <= j <= |s|
    ensures Lower(s[i..j]) == Lower(s)[i..j]
  {
  }

  /** `t` occurs in `s` starting at position `i`. */
  predicate OccursAt(s: string, t: string, i: nat) {
    i + |t| <= |s| && s[i..i + |t|] == t
  }

  /** `String.prototype.includes`: a left-to-right scan for `t` in `s`. */
  predicate Contains(s: string, t: string)
    decreases |s|
  {
    (|t| <= |s| && s[..|t|] == t) || (|s| > 0 && Contains(s[1..], t))
  }

  /** The scan finds `t` exactly when `t` occurs somewhere in `s`. */
  lemma {:induction false} ContainsIff(s: string, t: string)
    ensures Contains(s, t) <==> exists i: nat :: OccursAt(s, t, i)
  {
    if |s| > 0 {
      ContainsIff(s[1..], t);
      if Contains(s[1..], t) {
        var i: nat :| OccursAt(s[1..], t, i);
        assert s[1..][i..i + |t|] == s[i + 1..i + 1 + |t|];
        assert OccursAt(s, t, i + 1);
      }
      if i: nat :| OccursAt(s, t, i) {
        if i > 0 {
          var a, b := s[1..][i - 1..i - 1 + |t|], s[i..i + |t|];
          forall k | 0 <= k < |t| ensures a[k] == b[k] {
            assert s[1..][i - 1 + k] == s[i + k];
          }
          assert a == b;
          assert OccursAt(s[1..], t, i - 1);
        } else {
          assert s[..|t|] == s[0..|t|];
        }
      }
      if |t| <= |s| && s[..|t|] == t {
        assert OccursAt(s, t, 0);
      }
    } else {
      if i: nat :| OccursAt(s, t, i) {
        assert |t| == 0 && s[..|t|] == t;
        assert Contains(s, t);
      }
      if Contains(s, t) {
        assert OccursAt(s, t, 0);
      }
    }
  }

  lemma OccursAtContains(s: string, t: string, i: nat)
    requires OccursAt(s, t, i)
    ensures Contains(s, t)
  {
    ContainsIff(s, t);
  }

  /** Containment is transitive: a string containing `t` contains everything `t` contains. */
  lemma ContainsTransitive(s: string, t: string, u: string)
    requires Contains(s, t) && Contains(t, u)
    ensures Contains(s, u)
  {
    ContainsIff(s, t);
    ContainsIff(t, u);
    var i: nat :| OccursAt(s, t, i);
    var j: nat :| OccursAt(t, u, j);
    assert t[j..j + |u|] == s[i..i + |t|][j..j + |u|];
    var w := s[i..i + |t|];
    var a, b := w[j..j + |u|], s[i + j..i + j + |u|];
    forall k | 0 <= k < |u| ensures a[k] == b[k] {
      assert a[k] == w[j + k] == s[i + j + k];
    }
    assert a == b;
    OccursAtContains(s, u, i + j);
  }

  /** `hay.toLowerCase().includes(needle.toLowerCase())`. */
  predicate ContainsIgnoreCase(hay: string, needle: string) {
    Contains(Lower(hay), Lower(needle))
  }

  lemma LowerIdempotent(s: string)
    ensures Lower(Lower(s)) == Lower(s)
  {
  }

  /** Lowering the needle first does not change an ignore-case search. */
  lemma ContainsIgnoreCaseLowered(hay: string, needle: string)
    ensures ContainsIgnoreCase(hay, Lower(needle)) <==> ContainsIgnoreCase(hay, needle)
  {
    LowerIdempotent(needle);
  }

  /** `word` occurs at position `i` of `text` when ASCII case is ignored (a regular expression with the `i` flag). */
  predicate OccursIgnoreCaseAt(text: string, word: string, i: nat) {
    OccursAt(Lower(text), Lower(word), i)
  }

  lemma ContainsIgnoreCaseIff(hay: string, needle: string)
    ensures ContainsIgnoreCase(hay, needle) <==> exists i: nat :: OccursIgnoreCaseAt(hay, needle, i)
  {
    ContainsIff(Lower(hay), Lower(needle));
    if ContainsIgnoreCase(hay, needle) {
      var i: nat :| OccursAt(Lower(hay), Lower(needle), i);
      assert OccursIgnoreCaseAt(hay, needle, i);
    }
    if i: nat :| OccursIgnoreCaseAt(hay, needle, i) {
      assert OccursAt(Lower(hay), Lower(needle), i);
    }
  }

  /** Lowering both strings keeps an occurrence where it is. */
  lemma LowerOccursAt(s: string, t: string, i: nat)
    requires OccursAt(s, t, i)
    ensures OccursAt(Lower(s), Lower(t), i)
  {
    LowerSlice(s, i, i + |t|);
  }

  /** The WhiteSpace and LineTerminator characters of ECMAScript, which `trim` removes. */
  predicate IsJsWhitespace(c: char) {
    c == '\t' || c == '\n' || c == '\U{B}' || c == '\U{C}' || c == '\r' || c == ' '
    || c == '\U{A0}' || c == '\U{1680}' || ('\U{2000}' <= c <= '\U{200A}')
    || c == '\U{2028}' || c == '\U{2029}' || c == '\U{202F}' || c == '\U{205F}'
    || c == '\U{3000}' || c == '\U{FEFF}'
  }

  /** Every character is white space (vacuously so for the empty string). */
  predicate IsBlank(s: string) {
    forall i :: 0 <= i < |s| ==> IsJsWhitespace(s[i])
  }

  /** `String.prototype.trimStart`. */
  function TrimStart(s: string): (r: string)
    ensures |r| <= |s| && r == s[|s| - |r|..]
    ensures IsBlank(s[..|s| - |r|])
    ensures r == [] || !IsJsWhitespace(r[0])
  {
    if s != [] && IsJsWhitespace(s[0]) then TrimStart(s[1..]) else s
  }

  /** `String.prototype.trimEnd`. */
  function TrimEnd(s: string): (r: string)
    ensures |r| <= |s| && r == s[..|r|]
    ensures IsBlank(s[|r|..])
    ensures r == [] || !IsJsWhitespace(r[|r| - 1])
  {
    if s != [] && IsJsWhitespace(s[|s| - 1]) then TrimEnd(s[..|s| - 1]) else s
  }

  /** `String.prototype.trim`. */
  function Trim(s: string): string {
    TrimEnd(TrimStart(s))
  }

  /** `line.trim().length > 0` holds exactly when the line has a character that is not white space. */
  lemma TrimEmptyIffBlank(s: string)
    ensures |Trim(s)| == 0 <==> IsBlank(s)
  {
    var t := TrimStart(s);
    assert s == s[..|s| - |t|] + t;
    if |Trim(s)| == 0 {
      // `t` is blank yet cannot start with white space, so it is empty
      assert t[0..] == t;
      assert t == [];
      assert s[..|s|] == s;
    } else {
      assert !IsJsWhitespace(t[0]);
      assert t[0] == s[|s| - |t|];
    }
  }

  /** A line the section extraction keeps: `line.trim().length > 0`. */
  predicate HasText(line: string) {
    |Trim(line)| > 0
  }

  /** The inverse of splitting: the pieces joined with '\n' between them. */
  function JoinLines(lines: seq<string>): string
    requires |lines| >= 1
  {
    if |lines| == 1 then lines[0] else lines[0] + "\n" + JoinLines(lines[1..])
  }

  /** `s.split('\n')`. */
  function SplitLines(s: string): (lines: seq<string>)
    ensures |lines| >= 1
    ensures forall i :: 0 <= i < |lines| ==> '\n' !in lines[i]
    ensures JoinLines(lines) == s
  {
    if s == [] then [""]
    else
      var rest := SplitLines(s[1..]);
      assert s == [s[0]] + s[1..];
      if s[0] == '\n' then
        [""] + rest
      else
        var lines := [[s[0]] + rest[0]] + rest[1..];
        assert |rest| > 1 ==> JoinLines(rest) == rest[0] + "\n" + JoinLines(rest[1..]);
        assert lines[1..] == rest[1..];
        lines
  }

  /** Every piece of a split occurs verbatim in the joined string. */
  lemma {:induction false} JoinLinesContains(lines: seq<string>, i: nat)
    requires |lines| >= 1 && i < |lines|
    ensures Contains(JoinLines(lines), lines[i])
    decreases |lines|
  {
    if |lines| == 1 {
      assert OccursAt(JoinLines(lines), lines[0], 0);
      OccursAtContains(JoinLines(lines), lines[0], 0);
    } else {
      var rest := JoinLines(lines[1..]);
      var whole := JoinLines(lines);
      assert whole == lines[0] + "\n" + rest;
      if i == 0 {
        assert OccursAt(whole, lines[0], 0);
        OccursAtContains(whole, lines[0], 0);
      } else {
        assert OccursAt(whole, rest, |lines[0]| + 1);
        OccursAtContains(whole, rest, |lines[0]| + 1);
        JoinLinesContains(lines[1..], i - 1);
        ContainsTransitive(whole, rest, lines[i]);
      }
    }
  }
}
