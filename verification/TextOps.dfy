/** Character classes and the string rewrites that seoFilename.js and
    socialposts.js write as regular expressions, each as an explicit
    character-level function. */
module TextOps {

  predicate IsAsciiUpper(c: char) { 'A' <= c <= 'Z' }
  predicate IsAsciiLower(c: char) { 'a' <= c <= 'z' }
  predicate IsAsciiLetter(c: char) { IsAsciiUpper(c) || IsAsciiLower(c) }
  predicate IsDigit(c: char) { '0' <= c <= '9' }
  predicate IsHexDigitCI(c: char) { IsDigit(c) || 'a' <= c <= 'f' || 'A' <= c <= 'F' }

  /** The regular-expression class `\w`: `[A-Za-z0-9_]`. */
  predicate IsWordChar(c: char) { IsAsciiLetter(c) || IsDigit(c) || c == '_' }

  /** `[\w-]`, the characters of an `/offers/<slug>` link. */
  predicate IsWordOrHyphen(c: char) { IsWordChar(c) || c == '-' }

  predicate IsHyphen(c: char) { c == '-' }

  /** The regular-expression class `\s`, which is also the set that
      `String.prototype.trim` removes (WhiteSpace and LineTerminator). */
  predicate IsJsSpace(c: char) {
    c == '\t' || c == '\n' || c == '\U{B}' || c == '\U{C}' || c == '\r' || c == ' '
    || c == '\U{A0}' || c == '\U{1680}' || ('\U{2000}' <= c <= '\U{200A}')
    || c == '\U{2028}' || c == '\U{2029}' || c == '\U{202F}' || c == '\U{205F}'
    || c == '\U{3000}' || c == '\U{FEFF}'
  }

  /** Every character of `s` satisfies `p`. */
  predicate All(s: string, p: char -> bool) {
    forall i :: 0 <= i < |s| ==> p(s[i])
  }

  /** Some character of `s` satisfies `p`. */
  predicate Any(s: string, p: char -> bool) {
    exists i :: 0 <= i < |s| && p(s[i])
  }

  function LowerChar(c: char): char {
    if IsAsciiUpper(c) then (c as int + 32) as char else c
  }

  /** `toLowerCase`, on ASCII letters. */
  function Lower(s: string): (r: string)
    ensures |r| == |s|
    ensures forall i :: 0 <= i < |s| ==> r[i] == LowerChar(s[i])
  {
    if |s| == 0 then "" else [LowerChar(s[0])] + Lower(s[1..])
  }

  lemma LowerHasNoUpper(s: string)
    ensures forall i :: 0 <= i < |Lower(s)| ==> !IsAsciiUpper(Lower(s)[i])
  {
  }

  lemma LowerIdempotent(s: string)
    ensures Lower(Lower(s)) == Lower(s)
  {
  }

  lemma LowerIdentity(s: string)
    requires forall i :: 0 <= i < |s| ==> !IsAsciiUpper(s[i])
    ensures Lower(s) == s
  {
  }

  lemma LowerConcat(a: string, b: string)
    ensures Lower(a + b) == Lower(a) + Lower(b)
  {
  }

  /** `s` begins with `p`. */
  predicate StartsWith(s: string, p: string) {
    |p| <= |s| && s[..|p|] == p
  }

  /** `s` ends with `suffix`. */
  predicate EndsWith(s: string, suffix: string) {
    |suffix| <= |s| && s[|s| - |suffix|..] == suffix
  }

  /** `s` begins with the lower-case ASCII pattern `p`, ignoring ASCII case
      (a regular expression with the `i` flag). */
  predicate StartsWithCI(s: string, p: string) {
    |p| <= |s| && forall i :: 0 <= i < |p| ==> LowerChar(s[i]) == p[i]
  }

  /** `s.includes(t)`. */
  predicate Contains(s: string, t: string) {
    exists i :: 0 <= i <= |s| && StartsWith(s[i..], t)
  }

  /** Length of the longest prefix of `s` whose characters satisfy `p`. */
  function LeadRun(s: string, p: char -> bool): (k: nat)
    ensures k <= |s|
    ensures forall i :: 0 <= i < k ==> p(s[i])
    ensures k < |s| ==> !p(s[k])
  {
    if |s| == 0 || !p(s[0]) then 0 else 1 + LeadRun(s[1..], p)
  }

  /** Index of the first character satisfying `p`, or `|s|` when none does. */
  function FirstWhere(s: string, p: char -> bool): (k: nat)
    ensures k <= |s|
    ensures forall i :: 0 <= i < k ==> !p(s[i])
    ensures k < |s| ==> p(s[k])
  {
    if |s| == 0 || p(s[0]) then 0 else 1 + FirstWhere(s[1..], p)
  }

  /** `s.replace(/[P]+/g, rep)`: every maximal run of characters satisfying
      `p` becomes one copy of `rep`. */
  function ReplaceRuns(s: string, p: char -> bool, rep: string): string
    decreases |s|
  {
    if |s| == 0 then ""
    else if p(s[0]) then rep + ReplaceRuns(s[LeadRun(s, p)..], p, rep)
    else [s[0]] + ReplaceRuns(s[1..], p, rep)
  }

  /** `s.replace(/[P]+/g, '')`: every character satisfying `p` is deleted. */
  function RemoveWhere(s: string, p: char -> bool): (r: string)
    ensures |r| <= |s|
    ensures forall i :: 0 <= i < |r| ==> !p(r[i])
    ensures forall i :: 0 <= i < |r| ==> r[i] in s
  {
    if |s| == 0 then ""
    else if p(s[0]) then RemoveWhere(s[1..], p)
    else [s[0]] + RemoveWhere(s[1..], p)
  }

  /** `s.replace(/^[P]+/, '')`. */
  function TrimStartWhere(s: string, p: char -> bool): (r: string)
    ensures r == s[LeadRun(s, p)..]
  {
    s[LeadRun(s, p)..]
  }

  /** Length of the longest suffix of `s` whose characters satisfy `p`. */
  function TrailRun(s: string, p: char -> bool): (k: nat)
    ensures k <= |s|
    ensures forall i :: |s| - k <= i < |s| ==> p(s[i])
    ensures k < |s| ==> !p(s[|s| - k - 1])
  {
    if |s| == 0 || !p(s[|s| - 1]) then 0 else 1 + TrailRun(s[..|s| - 1], p)
  }

  /** `s.replace(/[P]+$/, '')`. */
  function TrimEndWhere(s: string, p: char -> bool): (r: string)
    ensures r == s[..|s| - TrailRun(s, p)]
  {
    s[..|s| - TrailRun(s, p)]
  }

  /** `String.prototype.trim`. */
  function Trim(s: string): string {
    TrimEndWhere(TrimStartWhere(s, IsJsSpace), IsJsSpace)
  }

  /** The string is blank: `!s.trim()`. */
  predicate Blank(s: string) {
    All(s, IsJsSpace)
  }

  /** `s.split(c)` for a one-character separator. */
  function SplitChar(s: string, c: char): (r: seq<string>)
    ensures |r| >= 1
    ensures forall i :: 0 <= i < |r| ==> c !in r[i]
    decreases |s|
  {
    var k := IndexOf(s, c);
    if k == |s| then [s] else [s[..k]] + SplitChar(s[k + 1..], c)
  }

  /** Position of the first `c` in `s`, or `|s|` when there is none. */
  function IndexOf(s: string, c: char): (k: nat)
    ensures k <= |s|
    ensures forall i :: 0 <= i < k ==> s[i] != c
    ensures k < |s| ==> s[k] == c
  {
    if |s| == 0 || s[0] == c then 0 else 1 + IndexOf(s[1..], c)
  }

  /** `s.trim()` is empty exactly when `s` is blank. */
  lemma TrimEmptyIffBlank(s: string)
    ensures Trim(s) == "" <==> Blank(s)
  {
    var k := LeadRun(s, IsJsSpace);
    var a := TrimStartWhere(s, IsJsSpace);
    if !Blank(s) {
      var i :| 0 <= i < |s| && !IsJsSpace(s[i]);
      assert k <= i;
      assert a[0] == s[k] && !IsJsSpace(a[0]);
      assert TrailRun(a, IsJsSpace) < |a|;
    } else {
      assert k == |s|;
    }
  }

  /** Splitting at a white-space character leaves some non-blank piece
      exactly when the whole text is not blank. */
  lemma SplitCharBlank(s: string, c: char)
    requires IsJsSpace(c)
    ensures (exists j :: 0 <= j < |SplitChar(s, c)| && !Blank(SplitChar(s, c)[j])) <==> !Blank(s)
  {
    if !Blank(s) {
      var i :| 0 <= i < |s| && !IsJsSpace(s[i]);
      var j := SplitCharKeepsText(s, c, i);
    }
    if exists j :: 0 <= j < |SplitChar(s, c)| && !Blank(SplitChar(s, c)[j]) {
      var j :| 0 <= j < |SplitChar(s, c)| && !Blank(SplitChar(s, c)[j]);
      SplitCharPieceText(s, c, j);
    }
  }

  /** The piece of `s.split(c)` that holds the non-blank character `s[i]`. */
  lemma {:induction false} SplitCharKeepsText(s: string, c: char, i: nat) returns (j: nat)
    requires IsJsSpace(c) && i < |s| && !IsJsSpace(s[i])
    ensures j < |SplitChar(s, c)| && !Blank(SplitChar(s, c)[j])
    decreases |s|
  {
    var r := SplitChar(s, c);
    var k := IndexOf(s, c);
    if k == |s| {
      assert r[0] == s;
      j := 0;
    } else if i < k {
      assert r[0] == s[..k] && s[..k][i] == s[i];
      j := 0;
    } else {
      var tail := s[k + 1..];
      assert r == [s[..k]] + SplitChar(tail, c);
      assert s[k] == c && i != k;
      assert tail[i - k - 1] == s[i];
      var t := SplitCharKeepsText(tail, c, i - k - 1);
      assert r[t + 1] == SplitChar(tail, c)[t];
      j := t + 1;
    }
  }

  lemma {:induction false} SplitCharPieceText(s: string, c: char, j: nat)
    requires j < |SplitChar(s, c)| && !Blank(SplitChar(s, c)[j])
    ensures !Blank(s)
    decreases |s|
  {
    var r := SplitChar(s, c);
    var k := IndexOf(s, c);
    if k == |s| {
      assert r[j] == s;
    } else {
      var tail := s[k + 1..];
      assert r == [s[..k]] + SplitChar(tail, c);
      if j == 0 {
        var i :| 0 <= i < |s[..k]| && !IsJsSpace(s[..k][i]);
        assert s[i] == s[..k][i];
      } else {
        assert SplitChar(tail, c)[j - 1] == r[j];
        SplitCharPieceText(tail, c, j - 1);
        var i :| 0 <= i < |tail| && !IsJsSpace(tail[i]);
        assert s[k + 1 + i] == tail[i];
      }
    }
  }

  /** `s.split(/[P]+/)`: the pieces between maximal runs of separators; a
      leading or trailing run yields an empty first or last piece. */
  function SplitRuns(s: string, p: char -> bool): (r: seq<string>)
    ensures |r| >= 1
    ensures forall i :: 0 <= i < |r| ==> !Any(r[i], p)
    decreases |s|
  {
    var k := FirstWhere(s, p);
    if k == |s| then [s]
    else [s[..k]] + SplitRuns(s[k + LeadRun(s[k..], p)..], p)
  }

  /** `xs.join(sep)`. */
  function Join(xs: seq<string>, sep: string): string {
    if |xs| == 0 then ""
    else if |xs| == 1 then xs[0]
    else xs[0] + sep + Join(xs[1..], sep)
  }

  lemma EndsWithAppend(a: string, b: string)
    ensures EndsWith(a + b, b)
  {
    assert (a + b)[|a|..] == b;
  }

  lemma StartsWithAppend(a: string, b: string)
    ensures StartsWith(a + b, a)
  {
    assert (a + b)[..|a|] == a;
  }

  lemma StartsWithExtend(s: string, p: string, t: string)
    requires StartsWith(s, p)
    ensures StartsWith(s + t, p)
  {
    assert (s + t)[..|p|] == s[..|p|];
  }

  lemma StartsWithPrepend(a: string, s: string, p: string)
    requires StartsWith(s, p)
    ensures StartsWith(a + s, a + p)
  {
    assert (a + s)[..|a| + |p|] == a + s[..|p|];
  }

  /** A text made of an opening, a middle holding `t`, and a closing starts
      with the opening, contains `t` and ends with the closing. */
  lemma Framed(opening: string, lead: string, t: string, tail: string, closing: string)
    ensures StartsWith(opening + (lead + t + tail) + closing, opening)
    ensures Contains(opening + (lead + t + tail) + closing, t)
    ensures EndsWith(opening + (lead + t + tail) + closing, closing)
  {
    StartsWithAppend(opening, lead + t + tail);
    StartsWithExtend(opening + (lead + t + tail), opening, closing);
    ContainsInfix(lead, t, tail);
    ContainsWiden(lead + t + tail, t, opening, closing);
    EndsWithAppend(opening + (lead + t + tail), closing);
  }

  lemma ContainsInfix(a: string, t: string, b: string)
    ensures Contains(a + t + b, t)
  {
    var s := a + t + b;
    assert s[|a|..][..|t|] == t;
  }

  lemma ContainsWiden(s: string, t: string, a: string, b: string)
    requires Contains(s, t)
    ensures Contains(a + s + b, t)
  {
    var i :| 0 <= i <= |s| && StartsWith(s[i..], t);
    var w := a + s + b;
    assert w[|a| + i..][..|t|] == s[i..][..|t|];
  }

  /** Every piece occurs in the joined string. */
  lemma {:induction false} JoinContains(xs: seq<string>, sep: string, i: nat)
    requires i < |xs|
    ensures Contains(Join(xs, sep), xs[i])
  {
    if |xs| == 1 {
      ContainsInfix("", xs[0], "");
      assert "" + xs[0] + "" == xs[0];
    } else if i == 0 {
      ContainsInfix("", xs[0], sep + Join(xs[1..], sep));
      assert "" + xs[0] + (sep + Join(xs[1..], sep)) == Join(xs, sep);
    } else {
      JoinContains(xs[1..], sep, i - 1);
      ContainsWiden(Join(xs[1..], sep), xs[i], xs[0] + sep, "");
      assert xs[0] + sep + Join(xs[1..], sep) + "" == Join(xs, sep);
    }
  }

  /** No two neighbouring characters of `s` both satisfy `p`. */
  predicate NoAdjacent(s: string, p: char -> bool) {
    forall i :: 0 <= i < |s| - 1 ==> !(p(s[i]) && p(s[i + 1]))
  }

  lemma {:induction false} ReplaceRunsChars(s: string, p: char -> bool, rep: string, q: char -> bool)
    requires forall i :: 0 <= i < |s| && !p(s[i]) ==> q(s[i])
    requires All(rep, q)
    ensures All(ReplaceRuns(s, p, rep), q)
    decreases |s|
  {
    if |s| > 0 {
      if p(s[0]) {
        var t := s[LeadRun(s, p)..];
        assert forall i :: 0 <= i < |t| ==> t[i] == s[LeadRun(s, p) + i];
        ReplaceRunsChars(t, p, rep, q);
      } else {
        assert forall i :: 0 <= i < |s[1..]| ==> s[1..][i] == s[i + 1];
        ReplaceRunsChars(s[1..], p, rep, q);
      }
    }
  }

  /** Replacing runs by a single separator character `x` never produces two
      neighbouring separators, and keeps whether the text starts with one. */
  lemma {:induction false} ReplaceRunsSingle(s: string, p: char -> bool, x: char)
    requires p(x)
    ensures NoAdjacent(ReplaceRuns(s, p, [x]), p)
    ensures |s| == 0 <==> |ReplaceRuns(s, p, [x])| == 0
    ensures |s| > 0 ==> (p(ReplaceRuns(s, p, [x])[0]) <==> p(s[0]))
    decreases |s|
  {
    if |s| > 0 {
      if p(s[0]) {
        var t := s[LeadRun(s, p)..];
        ReplaceRunsSingle(t, p, x);
        assert |t| > 0 ==> t[0] == s[LeadRun(s, p)];
      } else {
        ReplaceRunsSingle(s[1..], p, x);
      }
    }
  }

  lemma {:induction false} ReplaceRunsIdentityNone(s: string, p: char -> bool, rep: string)
    requires !Any(s, p)
    ensures ReplaceRuns(s, p, rep) == s
    decreases |s|
  {
    if |s| > 0 {
      assert !p(s[0]);
      assert !Any(s[1..], p) by {
        forall i | 0 <= i < |s[1..]| ensures !p(s[1..][i]) {
          assert s[1..][i] == s[i + 1];
        }
      }
      ReplaceRunsIdentityNone(s[1..], p, rep);
    }
  }

  lemma {:induction false} ReplaceRunsIdentitySingle(s: string, p: char -> bool, x: char)
    requires p(x)
    requires forall i :: 0 <= i < |s| && p(s[i]) ==> s[i] == x
    requires NoAdjacent(s, p)
    ensures ReplaceRuns(s, p, [x]) == s
    decreases |s|
  {
    if |s| > 0 {
      if p(s[0]) {
        assert LeadRun(s, p) == 1 by {
          assert |s| == 1 || !p(s[1]);
          assert LeadRun(s, p) == 1 + LeadRun(s[1..], p);
        }
      }
      ReplaceRunsIdentitySingle(s[1..], p, x);
      assert s == [s[0]] + s[1..];
    }
  }

  predicate NoUpper(c: char) { !IsAsciiUpper(c) }

  lemma LowerAll(s: string)
    ensures All(Lower(s), NoUpper)
  {
  }

  lemma AllConcat(a: string, b: string, p: char -> bool)
    requires All(a, p) && All(b, p)
    ensures All(a + b, p)
  {
    assert forall k :: 0 <= k < |a + b| ==> (a + b)[k] == if k < |a| then a[k] else b[k - |a|];
  }

  lemma AllSlice(s: string, p: char -> bool, i: nat, j: nat)
    requires All(s, p) && i <= j <= |s|
    ensures All(s[i..j], p)
  {
    assert forall k :: 0 <= k < j - i ==> s[i..j][k] == s[i + k];
  }

  lemma NoAdjacentSlice(s: string, p: char -> bool, i: nat, j: nat)
    requires NoAdjacent(s, p) && i <= j <= |s|
    ensures NoAdjacent(s[i..j], p)
  {
    assert forall k :: 0 <= k < j - i ==> s[i..j][k] == s[i + k];
  }

  /** Trimming `p` at both ends leaves neither end satisfying `p`. */
  lemma TrimWhereEnds(s: string, p: char -> bool)
    ensures var r := TrimEndWhere(TrimStartWhere(s, p), p);
      |r| > 0 ==> !p(r[0]) && !p(r[|r| - 1])
  {
    var a := TrimStartWhere(s, p);
    var r := TrimEndWhere(a, p);
    if |r| > 0 {
      assert r[0] == a[0] == s[LeadRun(s, p)];
    }
  }

  /** Trimming is the identity on text whose ends do not satisfy `p`. */
  lemma TrimWhereIdentity(s: string, p: char -> bool)
    requires |s| > 0 ==> !p(s[0]) && !p(s[|s| - 1])
    ensures TrimEndWhere(TrimStartWhere(s, p), p) == s
  {
    assert LeadRun(s, p) == 0;
    assert TrimStartWhere(s, p) == s;
    assert TrailRun(s, p) == 0;
  }

  lemma {:induction false} RemoveWhereChars(s: string, p: char -> bool, q: char -> bool)
    requires forall i :: 0 <= i < |s| && !p(s[i]) ==> q(s[i])
    ensures All(RemoveWhere(s, p), q)
    decreases |s|
  {
    if |s| > 0 {
      assert forall i :: 0 <= i < |s[1..]| ==> s[1..][i] == s[i + 1];
      RemoveWhereChars(s[1..], p, q);
    }
  }

  lemma {:induction false} RemoveWhereIdentity(s: string, p: char -> bool)
    requires !Any(s, p)
    ensures RemoveWhere(s, p) == s
    decreases |s|
  {
    if |s| > 0 {
      assert !p(s[0]);
      assert !Any(s[1..], p) by {
        forall i | 0 <= i < |s[1..]| ensures !p(s[1..][i]) {
          assert s[1..][i] == s[i + 1];
        }
      }
      RemoveWhereIdentity(s[1..], p);
    }
  }
  lemma {:induction false} RemoveWhereConcat(a: string, b: string, p: char -> bool)
    ensures RemoveWhere(a + b, p) == RemoveWhere(a, p) + RemoveWhere(b, p)
    decreases |a|
  {
    if |a| == 0 {
      assert a + b == b;
    } else {
      assert (a + b)[0] == a[0];
      assert (a + b)[1..] == a[1..] + b;
      RemoveWhereConcat(a[1..], b, p);
    }
  }

  /** Deleting the characters satisfying `p` skips a leading run of them. */
  lemma {:induction false} RemoveWhereSkipsRun(s: string, p: char -> bool, k: nat)
    requires k <= |s|
    requires forall i :: 0 <= i < k ==> p(s[i])
    ensures RemoveWhere(s, p) == RemoveWhere(s[k..], p)
    decreases k
  {
    if k > 0 {
      assert s[1..][k - 1..] == s[k..];
      RemoveWhereSkipsRun(s[1..], p, k - 1);
    }
  }
}
