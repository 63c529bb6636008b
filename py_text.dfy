/**
 * The string operations of Python's `str` that the assistant's routing,
 * redaction and slot-filling code relies on: whitespace, ASCII case
 * mapping, substring tests, strip, split, join, replace and the
 * "first 50 characters plus an ellipsis" abbreviation that recurs in the
 * ticket code.
 *
 * Whitespace is exact (the characters Python's `str.isspace` and the
 * regular-expression class `\s` accept); case mapping is ASCII only.
 */
module PyText {

  datatype Option<+T> = None | Some(value: T)

  /** Python's `str.isspace()` for one character, which is also what `\s` matches. */
  predicate IsSpace(c: char) {
    || c == ' '
    || ('\t' <= c <= '\r')
    || ('\U{1C}' <= c <= '\U{1F}')
    || c == '\U{85}' || c == '\U{A0}' || c == '\U{1680}'
    || ('\U{2000}' <= c <= '\U{200A}')
    || c == '\U{2028}' || c == '\U{2029}' || c == '\U{202F}' || c == '\U{205F}' || c == '\U{3000}'
  }

  predicate IsUpper(c: char) { 'A' <= c <= 'Z' }
  predicate IsLower(c: char) { 'a' <= c <= 'z' }
  predicate IsLetter(c: char) { IsUpper(c) || IsLower(c) }
  predicate IsDigit(c: char) { '0' <= c <= '9' }

  function LowerChar(c: char): (r: char)
    ensures IsUpper(c) ==> IsLower(r)
    ensures !IsUpper(c) ==> r == c
  {
    if IsUpper(c) then (c as int + 32) as char else c
  }

  function UpperChar(c: char): (r: char)
    ensures IsLower(c) ==> IsUpper(r)
    ensures !IsLower(c) ==> r == c
  {
    if IsLower(c) then (c as int - 32) as char else c
  }

  /** `s.lower()`, restricted to ASCII letters. */
  function Lower(s: string): (r: string)
    ensures |r| == |s|
    ensures forall k :: 0 <= k < |s| ==> r[k] == LowerChar(s[k])
  {
    seq(|s|, k requires 0 <= k < |s| => LowerChar(s[k]))
  }

  /** `s.upper()`, restricted to ASCII letters. */
  function Upper(s: string): (r: string)
    ensures |r| == |s|
    ensures forall k :: 0 <= k < |s| ==> r[k] == UpperChar(s[k])
  {
    seq(|s|, k requires 0 <= k < |s| => UpperChar(s[k]))
  }

  lemma LowerIdempotent(s: string)
    ensures Lower(Lower(s)) == Lower(s)
  {
  }

  predicate StartsWith(s: string, p: string) {
    |p| <= |s| && s[..|p|] == p
  }

  /** `s.endswith(p)` */
  predicate EndsWith(s: string, p: string) {
    |p| <= |s| && s[|s| - |p|..] == p
  }

  /** A text built as `a + p + m + b` starts with `a`, holds `p` and ends with `b`. */
  lemma Framed(a: string, p: string, m: string, b: string)
    ensures var s := a + p + m + b;
      StartsWith(s, a) && Contains(s, p) && EndsWith(s, b)
  {
    var s := a + p + m + b;
    assert s[..|a|] == a;
    assert s[|s| - |b|..] == b;
    ContainsInfix(a, p, m + b);
    assert a + p + (m + b) == s;
  }

  /** Texts that share a lead and then differ cannot start one another. */
  lemma DivergentStart(lead: string, a: string, b: string, s: string)
    requires |a| > 0 && |b| > 0 && a[0] != b[0]
    requires StartsWith(s, lead + b)
    ensures !StartsWith(s, lead + a)
  {
    assert s[|lead|] == (lead + b)[|lead|] == b[0];
    assert (lead + a)[|lead|] == a[0];
  }

  /** Python's `p in s`. */
  predicate Contains(s: string, p: string)
    decreases |s|
  {
    StartsWith(s, p) || (|s| > 0 && Contains(s[1..], p))
  }

  /** `p` occurs in `s` at index `i`. */
  predicate OccursAt(s: string, p: string, i: nat) {
    i + |p| <= |s| && s[i..i + |p|] == p
  }

  /** `p in s` holds exactly when `p` occurs at some index of `s`. */
  lemma {:induction false} ContainsAt(s: string, p: string)
    ensures Contains(s, p) <==> exists i: nat :: OccursAt(s, p, i)
    decreases |s|
  {
    if StartsWith(s, p) {
      assert OccursAt(s, p, 0);
    }
    if |s| > 0 {
      ContainsAt(s[1..], p);
      if Contains(s[1..], p) {
        var i: nat :| OccursAt(s[1..], p, i);
        assert OccursAt(s, p, i + 1);
      }
      if exists i: nat :: OccursAt(s, p, i) {
        var i: nat :| OccursAt(s, p, i);
        if i > 0 {
          assert OccursAt(s[1..], p, i - 1);
        }
      }
    } else {
      if exists i: nat :: OccursAt(s, p, i) {
        var i: nat :| OccursAt(s, p, i);
        assert |p| == 0;
      }
    }
  }

  /** A containment survives lower-casing both sides. */
  lemma ContainsLower(s: string, p: string)
    requires Contains(s, p)
    ensures Contains(Lower(s), Lower(p))
  {
    ContainsAt(s, p);
    var i: nat :| OccursAt(s, p, i);
    assert Lower(s)[i..i + |p|] == Lower(p);
    assert OccursAt(Lower(s), Lower(p), i);
    ContainsAt(Lower(s), Lower(p));
  }

  /** Containment is transitive: a substring of a substring is a substring. */
  lemma ContainsTrans(s: string, t: string, p: string)
    requires Contains(s, t) && Contains(t, p)
    ensures Contains(s, p)
  {
    ContainsAt(s, t);
    ContainsAt(t, p);
    var i: nat :| OccursAt(s, t, i);
    var j: nat :| OccursAt(t, p, j);
    forall k | i + j <= k < i + j + |p|
      ensures s[k] == p[k - i - j]
    {
      assert s[k] == t[k - i];
    }
    assert OccursAt(s, p, i + j);
    ContainsAt(s, p);
  }

  /** A string that never holds the character `c` contains no pattern holding `c`. */
  lemma NotContainsChar(s: string, p: string, c: char)
    requires c in p && c !in s
    ensures !Contains(s, p)
  {
    ContainsAt(s, p);
  }

  /** `any(p in s for p in ps)`, evaluated left to right. */
  predicate AnyContained(s: string, ps: seq<string>)
    decreases |ps|
  {
    |ps| > 0 && (Contains(s, ps[0]) || AnyContained(s, ps[1..]))
  }

  lemma {:induction false} AnyContainedIff(s: string, ps: seq<string>)
    ensures AnyContained(s, ps) <==> exists k :: 0 <= k < |ps| && Contains(s, ps[k])
    decreases |ps|
  {
    if |ps| > 0 {
      AnyContainedIff(s, ps[1..]);
      if exists k :: 0 <= k < |ps| && Contains(s, ps[k]) {
        var k :| 0 <= k < |ps| && Contains(s, ps[k]);
        if k > 0 { assert Contains(s, ps[1..][k - 1]); }
      }
    }
  }

  /** `s.lstrip()` */
  function LStrip(s: string): (r: string)
    ensures |r| <= |s| && r == s[|s| - |r|..]
    ensures r != [] ==> !IsSpace(r[0])
    ensures forall k :: 0 <= k < |s| - |r| ==> IsSpace(s[k])
    decreases |s|
  {
    if s != [] && IsSpace(s[0]) then LStrip(s[1..]) else s
  }

  /** `s.rstrip()` */
  function RStrip(s: string): (r: string)
    ensures |r| <= |s| && r == s[..|r|]
    ensures r != [] ==> !IsSpace(r[|r| - 1])
    ensures forall k :: |r| <= k < |s| ==> IsSpace(s[k])
    decreases |s|
  {
    if s != [] && IsSpace(s[|s| - 1]) then RStrip(s[..|s| - 1]) else s
  }

  /** `s.strip()` */
  function Strip(s: string): string {
    RStrip(LStrip(s))
  }

  /** Stripping keeps a middle slice of the string and removes only whitespace around it. */
  lemma StripSlice(s: string) returns (i: nat, j: nat)
    ensures i <= j <= |s| && Strip(s) == s[i..j]
    ensures forall k :: 0 <= k < i ==> IsSpace(s[k])
    ensures forall k :: j <= k < |s| ==> IsSpace(s[k])
    ensures i < j ==> !IsSpace(s[i]) && !IsSpace(s[j - 1])
  {
    var l := LStrip(s);
    var r := RStrip(l);
    i := |s| - |l|;
    j := i + |r|;
    assert l == s[i..];
    assert r == l[..|r|];
    assert r == s[i..j];
    forall k | j <= k < |s| ensures IsSpace(s[k]) {
      assert s[k] == l[k - i];
    }
    if i < j {
      assert s[i] == r[0] && s[j - 1] == r[|r| - 1];
    }
  }

  /** A string with no whitespace at either end is its own strip. */
  lemma StripNoOp(s: string)
    requires s != [] ==> !IsSpace(s[0]) && !IsSpace(s[|s| - 1])
    ensures Strip(s) == s
  {
  }

  lemma StripIdempotent(s: string)
    ensures Strip(Strip(s)) == Strip(s)
  {
    var i, j := StripSlice(s);
    StripNoOp(Strip(s));
  }

  /** Number of characters from index `i` on that are not whitespace, up to the first one that is. */
  function WordLength(s: string, i: nat): (n: nat)
    requires i <= |s|
    ensures i + n <= |s|
    ensures forall k :: i <= k < i + n ==> !IsSpace(s[k])
    ensures i + n < |s| ==> IsSpace(s[i + n])
    decreases |s| - i
  {
    if i < |s| && !IsSpace(s[i]) then 1 + WordLength(s, i + 1) else 0
  }

  predicate IsWord(w: string) {
    w != [] && forall k :: 0 <= k < |w| ==> !IsSpace(w[k])
  }

  /** `s.split()`: the maximal runs of non-whitespace characters, in order. */
  function Split(s: string): (words: seq<string>)
    ensures forall k :: 0 <= k < |words| ==> IsWord(words[k])
    decreases |s|
  {
    var t := LStrip(s);
    if t == [] then []
    else
      var n := WordLength(t, 0);
      FirstWord(t);
      var rest := Split(t[n..]);
      WordsCons(t[..n], rest);
      [t[..n]] + rest
  }

  /** The run of non-whitespace at the start of a string that does not start with whitespace is a word. */
  lemma FirstWord(t: string)
    requires t != [] && !IsSpace(t[0])
    ensures 0 < WordLength(t, 0) && IsWord(t[..WordLength(t, 0)])
  {
    var n := WordLength(t, 0);
    forall k | 0 <= k < n ensures !IsSpace(t[..n][k]) {
      assert t[..n][k] == t[k];
    }
  }

  lemma WordsCons(w: string, words: seq<string>)
    requires IsWord(w) && forall k :: 0 <= k < |words| ==> IsWord(words[k])
    ensures forall k :: 0 <= k < |[w] + words| ==> IsWord(([w] + words)[k])
  {
    forall k | 0 < k < |[w] + words| ensures IsWord(([w] + words)[k]) {
      assert ([w] + words)[k] == words[k - 1];
    }
  }

  /** `sep.join(words)` */
  function Join(words: seq<string>, sep: string): (r: string)
    ensures |words| == 1 ==> r == words[0]
    decreases |words|
  {
    if words == [] then ""
    else if |words| == 1 then words[0]
    else words[0] + sep + Join(words[1..], sep)
  }

  /** A text occurs in any text that holds it between two others. */
  lemma ContainsInfix(a: string, p: string, b: string)
    ensures Contains(a + p + b, p)
  {
    ContainsAt(a + p + b, p);
    assert (a + p + b)[|a|..|a| + |p|] == p;
    assert OccursAt(a + p + b, p, |a|);
  }

  /** Every word occurs in the joined text. */
  lemma {:induction false} JoinHas(words: seq<string>, sep: string, k: nat)
    requires k < |words|
    ensures Contains(Join(words, sep), words[k])
    decreases |words|
  {
    if |words| == 1 {
      ContainsInfix([], words[0], []);
      assert [] + words[0] + [] == words[0];
    } else if k == 0 {
      ContainsInfix([], words[0], sep + Join(words[1..], sep));
      assert [] + words[0] + (sep + Join(words[1..], sep)) == Join(words, sep);
    } else {
      JoinHas(words[1..], sep, k - 1);
      ContainsInfix(words[0] + sep, Join(words[1..], sep), []);
      assert words[0] + sep + Join(words[1..], sep) + [] == Join(words, sep);
      ContainsTrans(Join(words, sep), Join(words[1..], sep), words[k]);
    }
  }

  /** Joining a non-empty list whose first word is non-empty gives a non-empty string. */
  lemma JoinNonEmpty(words: seq<string>, sep: string)
    requires |words| > 0 && words[0] != []
    ensures Join(words, sep) != []
  {
  }

  /** `s[:50] + "..." if len(s) > 50 else s` */
  function Abbreviate(s: string): (r: string)
    ensures |s| <= 50 ==> r == s
    ensures |s| > 50 ==> |r| == 53 && r[..50] == s[..50] && r[50..] == "..."
    ensures |r| <= 53
  {
    if |s| > 50 then s[..50] + "..." else s
  }

  /** `s.replace(p, "")` for a non-empty `p`: one left-to-right pass removing non-overlapping occurrences. */
  function RemoveAll(s: string, p: string): (r: string)
    requires p != []
    ensures |r| <= |s|
    decreases |s|
  {
    if |s| < |p| then s
    else if s[..|p|] == p then RemoveAll(s[|p|..], p)
    else [s[0]] + RemoveAll(s[1..], p)
  }

  /** Removing a pattern that does not occur leaves the string as it was. */
  lemma {:induction false} RemoveAbsent(s: string, p: string)
    requires p != [] && !Contains(s, p)
    ensures RemoveAll(s, p) == s
    decreases |s|
  {
    if |s| >= |p| {
      assert !StartsWith(s, p);
      RemoveAbsent(s[1..], p);
    }
  }

  /** A leading occurrence of `p` is removed, and the pass goes on after it. */
  lemma RemoveAllPrefix(p: string, x: string)
    requires p != []
    ensures RemoveAll(p + x, p) == RemoveAll(x, p)
  {
    assert (p + x)[..|p|] == p;
    assert (p + x)[|p|..] == x;
  }

  /** One pass can join the text around a removed occurrence into a new one. */
  lemma RemoveAllCanLeaveOccurrence()
    ensures RemoveAll("aabb", "ab") == "ab" && Contains("ab", "ab")
  {
    var s := "aabb";
    assert s[..2] != "ab" by { assert s[..2][1] == 'a'; }
    assert s[1..] == "abb";
    assert s[1..][..2] == "ab" && s[1..][2..] == "b";
    assert "ab"[..2] == "ab";
  }

  /** `p` is absent from `a + b` when it is absent from `b` and starts at no index of `a`. */
  lemma {:induction false} AbsentAppend(a: string, b: string, p: string)
    requires !Contains(b, p)
    requires forall q :: 0 <= q < |a| ==> !StartsWith((a + b)[q..], p)
    ensures !Contains(a + b, p)
    decreases |a|
  {
    if a == [] {
      assert a + b == b;
    } else {
      assert (a + b)[0..] == a + b;
      assert (a + b)[1..] == a[1..] + b;
      forall q | 0 <= q < |a[1..]|
        ensures !StartsWith((a[1..] + b)[q..], p)
      {
        assert (a + b)[q + 1..] == (a[1..] + b)[q..];
      }
      AbsentAppend(a[1..], b, p);
    }
  }

  /** No index of the marked text starts the differently marked one. */
  lemma MarkedStart(m: char, lead: string, t: string, t': string, x: string, q: nat)
    requires m !in lead && m !in t
    requires |t| > 0 && |t'| > 0 && t[0] != t'[0]
    requires q < |[m] + lead + t|
    ensures !StartsWith(([m] + lead + t + x)[q..], [m] + lead + t')
  {
    var s := [m] + lead + t + x;
    var p := [m] + lead + t';
    if q == 0 {
      assert s[1 + |lead|] == t[0] && p[1 + |lead|] == t'[0];
    } else {
      assert s[q] in lead + t by { assert s[1..1 + |lead| + |t|] == lead + t; }
      assert s[q..][0] != p[0];
    }
  }

  /**
   * Two texts that share a marker character and a lead, then differ in their
   * first following character: the second cannot occur in the first followed
   * by a text free of it, when the marker appears nowhere else in the first.
   */
  lemma MarkedAbsent(m: char, lead: string, t: string, t': string, x: string)
    requires m !in lead && m !in t
    requires |t| > 0 && |t'| > 0 && t[0] != t'[0]
    requires !Contains(x, [m] + lead + t')
    ensures !Contains([m] + lead + t + x, [m] + lead + t')
  {
    var a := [m] + lead + t;
    assert [m] + lead + t + x == a + x;
    forall q | 0 <= q < |a|
      ensures !StartsWith((a + x)[q..], [m] + lead + t')
    {
      MarkedStart(m, lead, t, t', x, q);
    }
    AbsentAppend(a, x, [m] + lead + t');
  }

  function DigitChar(d: nat): char
    requires d < 10
  {
    ('0' as int + d) as char
  }

  /** `str(n)` for a natural number. */
  function NatToString(n: nat): (r: string)
    ensures r != []
    ensures forall k :: 0 <= k < |r| ==> IsDigit(r[k])
  {
    if n < 10 then [DigitChar(n)] else NatToString(n / 10) + [DigitChar(n % 10)]
  }

  /** `str.title()` on ASCII text: a letter is upper-cased when it starts a run of letters, lower-cased otherwise. */
  function TitleCase(s: string): (r: string)
    ensures |r| == |s|
    ensures forall k :: 0 <= k < |s| ==> !IsLetter(s[k]) ==> r[k] == s[k]
  {
    seq(|s|, k requires 0 <= k < |s| =>
      if k == 0 || !IsLetter(s[k - 1]) then UpperChar(s[k]) else LowerChar(s[k]))
  }

  /** `s.replace(a, b)` for single characters. */
  function ReplaceChar(s: string, a: char, b: char): (r: string)
    ensures |r| == |s|
    ensures forall k :: 0 <= k < |s| ==> r[k] == (if s[k] == a then b else s[k])
  {
    seq(|s|, k requires 0 <= k < |s| => if s[k] == a then b else s[k])
  }

  /** Replacing a character that does not occur changes nothing. */
  lemma ReplaceAbsent(s: string, a: char, b: char)
    requires a !in s
    ensures ReplaceChar(s, a, b) == s
  {
  }

  /** Replacing works piece by piece. */
  lemma ReplaceAppend(s: string, t: string, a: char, b: char)
    ensures ReplaceChar(s + t, a, b) == ReplaceChar(s, a, b) + ReplaceChar(t, a, b)
  {
  }

  /** A space ends a word: title-casing two texts around a space title-cases each. */
  lemma TitleCaseSpace(s: string, t: string)
    ensures TitleCase(s + " " + t) == TitleCase(s) + " " + TitleCase(t)
  {
    var u := s + " " + t;
    var l, r := TitleCase(u), TitleCase(s) + " " + TitleCase(t);
    forall k | 0 <= k < |l|
      ensures l[k] == r[k]
    {
      if k < |s| {
        assert u[k] == s[k] && (k > 0 ==> u[k - 1] == s[k - 1]);
        assert r[k] == TitleCase(s)[k];
      } else if k == |s| {
        assert u[k] == ' ' && r[k] == ' ';
      } else {
        var j := k - |s| - 1;
        assert u[k] == t[j] && (j > 0 ==> u[k - 1] == t[j - 1]);
        assert j == 0 ==> u[k - 1] == ' ';
        assert r[k] == TitleCase(t)[j];
      }
    }
  }

  /** A word of lower-case letters is title-cased by upper-casing its first letter. */
  lemma LowerWordTitle(w: string)
    requires |w| > 0 && forall k :: 0 <= k < |w| ==> IsLower(w[k])
    ensures TitleCase(w) == [UpperChar(w[0])] + w[1..]
  {
    var r := [UpperChar(w[0])] + w[1..];
    forall k | 0 < k < |w|
      ensures TitleCase(w)[k] == r[k]
    {
      assert IsLetter(w[k - 1]);
    }
  }

  /** Python's `str()` of an optional string: the text itself or `None`. */
  function OptionText(o: Option<string>): string {
    match o
    case Some(s) => s
    case None => "None"
  }

  /** The truth value Python gives an optional string: present and non-empty. */
  predicate Truthy(o: Option<string>) {
    o.Some? && o.value != ""
  }
}
