/**
 * The string primitives the JavaScript code relies on: ASCII lowering
 * (toLowerCase), whitespace as the regular-expression class \s and trim()
 * see it, substring search (includes), prefix test (startsWith) and the
 * two ways the code splits a name into words.
 */
module Text {

  /** toLowerCase, restricted to the ASCII letters. */
  function LowerChar(c: char): (r: char)
    ensures 'A' <= c <= 'Z' ==> 'a' <= r <= 'z' && r as int == c as int + 32
    ensures !('A' <= c <= 'Z') ==> r == c
  {
    if 'A' <= c <= 'Z' then (c as int + 32) as char else c
  }

  function Lower(s: string): (r: string)
    ensures |r| == |s|
    ensures forall i :: 0 <= i < |s| ==> r[i] == LowerChar(s[i])
  {
    seq(|s|, i requires 0 <= i < |s| => LowerChar(s[i]))
  }

  /** The characters matched by \s (and removed by trim()) in ECMAScript:
      WhiteSpace and LineTerminator. */
  predicate IsWhite(c: char) {
    c == '\t' || c == '\n' || c == '\U{000B}' || c == '\U{000C}' || c == '\r' || c == ' '
    || c == '\U{00A0}' || c == '\U{1680}' || ('\U{2000}' <= c <= '\U{200A}')
    || c == '\U{2028}' || c == '\U{2029}' || c == '\U{202F}' || c == '\U{205F}'
    || c == '\U{3000}' || c == '\U{FEFF}'
  }

  /** s.includes(t): t occurs in s at some position (the empty t occurs everywhere). */
  predicate Contains(s: string, t: string)
    ensures Contains(s, t) ==> |t| <= |s|
    ensures Contains(s, t) && |t| == |s| ==> t == s
    decreases |s|
  {
    t <= s || (|s| > 0 && Contains(s[1..], t))
  }

  /** s.startsWith(t). */
  predicate StartsWith(s: string, t: string) {
    t <= s
  }

  lemma {:induction false} ContainsEmpty(s: string)
    ensures Contains(s, "")
  {
  }

  /** Any prefix of a contained string is contained too. */
  lemma {:induction false} ContainsPrefix(s: string, t: string, u: string)
    requires Contains(s, t) && u <= t
    ensures Contains(s, u)
    decreases |s|
  {
    if t <= s {
      assert u <= s;
    } else {
      ContainsPrefix(s[1..], t, u);
    }
  }

  /** A string contained in a whitespace-free string has no whitespace. */
  lemma {:induction false} ContainsNoWhite(s: string, t: string)
    requires Contains(s, t)
    requires forall i :: 0 <= i < |s| ==> !IsWhite(s[i])
    ensures forall i :: 0 <= i < |t| ==> !IsWhite(t[i])
    decreases |s|
  {
    if t <= s {
      assert forall i :: 0 <= i < |t| ==> t[i] == s[i];
    } else {
      ContainsNoWhite(s[1..], t);
    }
  }

  /** Contains(s, t) holds exactly when t sits at some index of s. */
  lemma {:induction false} ContainsAt(s: string, t: string, k: nat)
    requires k + |t| <= |s| && s[k..k + |t|] == t
    ensures Contains(s, t)
    decreases k
  {
    if k == 0 {
      assert t <= s;
    } else {
      assert s[1..][k - 1..k - 1 + |t|] == s[k..k + |t|];
      ContainsAt(s[1..], t, k - 1);
    }
  }

  /** ...and a contained t sits at some index of s. */
  lemma {:induction false} ContainsSomewhere(s: string, t: string) returns (k: nat)
    requires Contains(s, t)
    ensures k + |t| <= |s| && s[k..k + |t|] == t
    decreases |s|
  {
    if t <= s {
      k := 0;
    } else {
      var j := ContainsSomewhere(s[1..], t);
      k := j + 1;
      assert s[k..k + |t|] == s[1..][j..j + |t|];
    }
  }

  /** The longest prefix of s without whitespace: s.split(/\s+/)[0]. */
  function FirstWord(s: string): (r: string)
    ensures r <= s
    ensures forall i :: 0 <= i < |r| ==> !IsWhite(r[i])
    ensures |r| < |s| ==> IsWhite(s[|r|])
    decreases |s|
  {
    if s == [] || IsWhite(s[0]) then [] else [s[0]] + FirstWord(s[1..])
  }

  /** The maximal runs of non-whitespace characters of s, in order:
      s.split(/\s+/).filter(Boolean). */
  function Words(s: string): (r: seq<string>)
    ensures forall i :: 0 <= i < |r| ==> r[i] != [] && forall j :: 0 <= j < |r[i]| ==> !IsWhite(r[i][j])
    decreases |s|
  {
    if s == [] then []
    else if IsWhite(s[0]) then Words(s[1..])
    else
      var w := FirstWord(s);
      [w] + Words(s[|w|..])
  }

  /** There are no words exactly when s is all whitespace. */
  lemma {:induction false} WordsNoneIff(s: string)
    ensures Words(s) == [] <==> forall i :: 0 <= i < |s| ==> IsWhite(s[i])
    decreases |s|
  {
    if s != [] && IsWhite(s[0]) {
      WordsNoneIff(s[1..]);
      assert forall i :: 1 <= i < |s| ==> s[i] == s[1..][i - 1];
    }
  }

  /** A whitespace character ends the first word. */
  lemma {:induction false} FirstWordSplit(u: string, c: char, v: string)
    requires IsWhite(c)
    ensures FirstWord(u + [c] + v) == FirstWord(u)
    decreases |u|
  {
    if u != [] && !IsWhite(u[0]) {
      assert (u + [c] + v)[1..] == u[1..] + [c] + v;
      FirstWordSplit(u[1..], c, v);
    }
  }

  /** A single run of non-whitespace is one word. */
  lemma WordsOfWord(w: string)
    requires w != [] && forall i :: 0 <= i < |w| ==> !IsWhite(w[i])
    ensures Words(w) == [w]
  {
    var f := FirstWord(w);
    assert f == w;
    assert Words(w) == [f] + Words(w[|f|..]);
  }

  /** Splitting at a whitespace character splits the word list: with
      WordsOfWord and WordsNoneIff this makes the words
      exactly the maximal non-whitespace runs of s, left to right. */
  lemma {:induction false} WordsSplit(u: string, c: char, v: string)
    requires IsWhite(c)
    ensures Words(u + [c] + v) == Words(u) + Words(v)
    decreases |u|, 1
  {
    var s := u + [c] + v;
    if u == [] {
      assert s[0] == c && s[1..] == v;
    } else if IsWhite(u[0]) {
      assert s[0] == u[0] && s[1..] == u[1..] + [c] + v;
      WordsSplit(u[1..], c, v);
    } else {
      WordsSplitAtWord(u, c, v);
    }
  }

  /** WordsSplit when u starts with a word. */
  lemma {:induction false} WordsSplitAtWord(u: string, c: char, v: string)
    requires IsWhite(c) && u != [] && !IsWhite(u[0])
    ensures Words(u + [c] + v) == Words(u) + Words(v)
    decreases |u|, 0
  {
    var w := FirstWord(u);
    FirstWordSplit(u, c, v);
    WordsAtWord(u);
    WordsAtWord(u + [c] + v);
    assert (u + [c] + v)[|w|..] == u[|w|..] + [c] + v;
    WordsSplit(u[|w|..], c, v);
  }

  /** A string starting with a word splits as that word and the words of
      the rest. */
  lemma WordsAtWord(s: string)
    requires s != [] && !IsWhite(s[0])
    ensures FirstWord(s) != []
    ensures Words(s) == [FirstWord(s)] + Words(s[|FirstWord(s)|..])
  {
    assert FirstWord(s) == [s[0]] + FirstWord(s[1..]);
  }

  /** The prefix of s before the first ' ': s.split(' ')[0]. */
  function UpToSpace(s: string): (r: string)
    ensures r <= s
    ensures ' ' !in r
    ensures |r| < |s| ==> s[|r|] == ' '
    decreases |s|
  {
    if s == [] || s[0] == ' ' then [] else [s[0]] + UpToSpace(s[1..])
  }

  /** String.prototype.trimStart over the whitespace set above. */
  function TrimStart(s: string): string
    decreases |s|
  {
    if s == [] || !IsWhite(s[0]) then s else TrimStart(s[1..])
  }

  lemma {:induction false} TrimStartShape(s: string)
    ensures var r := TrimStart(s);
      |r| <= |s| && r == s[|s| - |r|..] && (r != [] ==> !IsWhite(r[0]))
    ensures forall i :: 0 <= i < |s| - |TrimStart(s)| ==> IsWhite(s[i])
    decreases |s|
  {
    if s != [] && IsWhite(s[0]) {
      TrimStartShape(s[1..]);
    }
  }

  /** String.prototype.trimEnd. */
  function TrimEnd(s: string): string
    decreases |s|
  {
    if s == [] || !IsWhite(s[|s| - 1]) then s else TrimEnd(s[..|s| - 1])
  }

  lemma {:induction false} TrimEndShape(s: string)
    ensures var r := TrimEnd(s);
      r <= s && (r != [] ==> !IsWhite(r[|r| - 1]))
    ensures forall i :: |TrimEnd(s)| <= i < |s| ==> IsWhite(s[i])
    decreases |s|
  {
    if s != [] && IsWhite(s[|s| - 1]) {
      TrimEndShape(s[..|s| - 1]);
    }
  }

  /** String.prototype.trim: the middle of s, with no whitespace at either end. */
  function Trim(s: string): (r: string)
    ensures |r| <= |s|
    ensures r != [] ==> !IsWhite(r[0]) && !IsWhite(r[|r| - 1])
  {
    TrimStartShape(s);
    TrimEndShape(TrimStart(s));
    TrimEnd(TrimStart(s))
  }

  /** trim() is the slice of s between its leading and its trailing
      whitespace: everything before lo and from hi on is whitespace, and the
      slice neither starts nor ends with whitespace. */
  lemma {:induction false} TrimSlice(s: string) returns (lo: nat, hi: nat)
    ensures lo <= hi <= |s| && Trim(s) == s[lo..hi]
    ensures forall i :: 0 <= i < lo ==> IsWhite(s[i])
    ensures forall i :: hi <= i < |s| ==> IsWhite(s[i])
    ensures lo < hi ==> !IsWhite(s[lo]) && !IsWhite(s[hi - 1])
  {
    var a := TrimStart(s);
    TrimStartShape(s);
    TrimEndShape(a);
    lo := |s| - |a|;
    hi := lo + |TrimEnd(a)|;
    assert Trim(s) == a[..|TrimEnd(a)|];
    forall i | hi <= i < |s| ensures IsWhite(s[i]) {
      assert s[i] == a[i - lo];
    }
  }
}
