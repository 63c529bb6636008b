/**
 * Secret redaction applied to ticket text before it leaves the assistant
 * (`_redact_secrets`, duplicated in ticket_agent.py and newapp.py).
 *
 * Three case-insensitive regular expressions are applied one after the
 * other, each with `re.sub` over the previous output; every non-whitespace
 * character of a match becomes a bullet:
 *   1. `(password|pass|secret|api[_\- ]?key|token)\s*[:=]\s*[^\s,;]+`
 *   2. `bearer\s+[a-z0-9\.\-_]+`
 *   3. `ssh-rsa\s+[a-z0-9\+\/=]+`
 * Each pattern is written out below as a hand-made matcher that returns the
 * length of the match the regular-expression engine would find at a given
 * index (0 for none); `Masked` is `re.sub`'s leftmost, non-overlapping search.
 */
module Redactor {
  import opened PyText

  /** The masking glyph. */
  const Bullet: char := '•'

  datatype Pattern = SecretAssignment | BearerToken | SshRsaKey

  /** The patterns in the order the redactor applies them. */
  const Patterns: seq<Pattern> := [SecretAssignment, BearerToken, SshRsaKey]

  /** The character classes the three patterns use (`[a-z]` admits upper case under `(?i)`). */
  datatype CharClass = Whitespace | ValueChar | TokenChar | BlobChar

  predicate InClass(c: char, cls: CharClass) {
    match cls
    case Whitespace => IsSpace(c)
    case ValueChar => !IsSpace(c) && c != ',' && c != ';'
    case TokenChar => IsLetter(c) || IsDigit(c) || c == '.' || c == '-' || c == '_'
    case BlobChar => IsLetter(c) || IsDigit(c) || c == '+' || c == '/' || c == '='
  }

  /** Length of the greedy run of `cls` characters that starts at `i`. */
  function Run(s: string, i: nat, cls: CharClass): (n: nat)
    requires i <= |s|
    ensures i + n <= |s|
    decreases |s| - i
  {
    if i < |s| && InClass(s[i], cls) then 1 + Run(s, i + 1, cls) else 0
  }

  /** Every character of a run is in the class. */
  lemma {:induction false} RunChars(s: string, i: nat, cls: CharClass)
    requires i <= |s|
    ensures forall k :: i <= k < i + Run(s, i, cls) ==> InClass(s[k], cls)
    decreases |s| - i
  {
    if i < |s| && InClass(s[i], cls) {
      RunChars(s, i + 1, cls);
    }
  }

  /** `lit` (lower-case ASCII) occurs at `i`, ignoring the case of letters. */
  predicate Literal(s: string, i: nat, lit: string) {
    i + |lit| <= |s| && forall k :: 0 <= k < |lit| ==> LowerChar(s[i + k]) == lit[k]
  }

  /** Length of a match of `\s*[:=]\s*[^\s,;]+` at `k`, or 0. */
  function AssignmentTail(s: string, k: nat): (n: nat)
    requires k <= |s|
    ensures k + n <= |s|
  {
    var k1 := k + Run(s, k, Whitespace);
    if k1 < |s| && (s[k1] == ':' || s[k1] == '=') then
      var k2 := k1 + 1 + Run(s, k1 + 1, Whitespace);
      var v := Run(s, k2, ValueChar);
      if v > 0 then k2 + v - k else 0
    else 0
  }

  /**
   * The alternatives of `password|pass|secret|api[_\- ]?key|token` in the
   * order the engine tries them (the optional separator is tried before its
   * absence).
   */
  const Labels: seq<string> := ["password", "pass", "secret", "api_key", "api-key", "api key", "apikey", "token"]

  /** Length of a match of label `name` followed by an assignment tail at `i`, or 0. */
  function LabelMatch(s: string, i: nat, name: string): (n: nat)
    requires i <= |s|
    ensures i + n <= |s|
  {
    if Literal(s, i, name) && AssignmentTail(s, i + |name|) > 0 then
      |name| + AssignmentTail(s, i + |name|)
    else 0
  }

  /** The first label alternative, in order, that is followed by an assignment tail decides the match. */
  function LabelledMatch(s: string, i: nat, labels: seq<string>): (n: nat)
    requires i <= |s|
    ensures i + n <= |s|
    decreases |labels|
  {
    if labels == [] then 0
    else if LabelMatch(s, i, labels[0]) > 0 then LabelMatch(s, i, labels[0])
    else LabelledMatch(s, i, labels[1..])
  }

  /** Length of a match of `lit\s+cls+` at `i`, or 0. */
  function PrefixedMatch(s: string, i: nat, lit: string, cls: CharClass): (n: nat)
    requires i <= |s|
    ensures i + n <= |s|
  {
    if Literal(s, i, lit) then
      var w := Run(s, i + |lit|, Whitespace);
      var t := Run(s, i + |lit| + w, cls);
      if w > 0 && t > 0 then |lit| + w + t else 0
    else 0
  }

  /** Length of the match of `p` that the regular-expression engine finds at index `i`, or 0. */
  function Match(p: Pattern, s: string, i: nat): (n: nat)
    requires i <= |s|
    ensures i + n <= |s|
  {
    match p
    case SecretAssignment => LabelledMatch(s, i, Labels)
    case BearerToken => PrefixedMatch(s, i, "bearer", TokenChar)
    case SshRsaKey => PrefixedMatch(s, i, "ssh-rsa", BlobChar)
  }

  /** `re.sub(r"\S", "•", m)` on one character of a match: non-whitespace becomes a bullet. */
  function MaskChar(c: char): (r: char)
    ensures r == c || r == Bullet
  {
    if IsSpace(c) then c else Bullet
  }

  /**
   * `ms` gives, for every index of `s` and for its end, the length of the
   * match the engine finds there (0 for none).
   */
  predicate MatchTable(ms: seq<nat>, s: string) {
    |ms| == |s| + 1 && forall j :: 0 <= j <= |s| ==> j + ms[j] <= |s|
  }

  /** The table of `p`'s matches in `s`. */
  function Matches(p: Pattern, s: string): (ms: seq<nat>)
    ensures MatchTable(ms, s)
    ensures forall j :: 0 <= j <= |s| ==> ms[j] == Match(p, s, j)
  {
    seq(|s| + 1, j requires 0 <= j <= |s| => Match(p, s, j))
  }

  /** The characters of the current match still to be masked after index `i`, given `rest` at `i`. */
  function Next(ms: seq<nat>, i: nat, rest: nat): nat
    requires i < |ms|
  {
    if rest > 0 then rest - 1 else if ms[i] > 0 then ms[i] - 1 else 0
  }

  /**
   * How many characters of a match begun before index `k` are still to be
   * masked at `k`. `re.sub` searches from left to right and resumes after each
   * match, so a match that would start inside an earlier one is never found.
   */
  function Rest(ms: seq<nat>, k: nat): nat
    requires k < |ms|
    decreases k
  {
    if k == 0 then 0 else Next(ms, k - 1, Rest(ms, k - 1))
  }

  /** Index `k` is masked: a match is in progress there or starts there. */
  predicate Covered(ms: seq<nat>, k: nat)
    requires k < |ms|
  {
    Rest(ms, k) > 0 || ms[k] > 0
  }

  /** `re.sub` over the match table `ms`: every covered character goes through `MaskChar`. */
  function Masked(ms: seq<nat>, s: string): (r: string)
    requires MatchTable(ms, s)
    ensures |r| == |s|
  {
    seq(|s|, k requires 0 <= k < |s| => if Covered(ms, k) then MaskChar(s[k]) else s[k])
  }

  /** `re.sub(pattern, mask, s)` */
  function Sub(p: Pattern, s: string): (r: string)
    ensures |r| == |s|
  {
    Masked(Matches(p, s), s)
  }

  /** The patterns of `ps` applied in order, each to the previous output. */
  function ApplyAll(ps: seq<Pattern>, s: string): (r: string)
    ensures |r| == |s|
    decreases |ps|
  {
    if ps == [] then s else ApplyAll(ps[1..], Sub(ps[0], s))
  }

  /** What `_redact_secrets` returns: empty text unchanged, otherwise the three passes. */
  function Redacted(text: string): (r: string)
    ensures |r| == |text|
  {
    if text == "" then text else ApplyAll(Patterns, text)
  }

  lemma RedactedPasses(text: string)
    requires text != ""
    ensures Redacted(text) == Sub(SshRsaKey, Sub(BearerToken, Sub(SecretAssignment, text)))
  {
    assert Patterns[1..] == [BearerToken, SshRsaKey];
    assert Patterns[1..][1..] == [SshRsaKey];
    assert Patterns[1..][1..][1..] == [];
  }

  /** `_redact_secrets`: reassigns the text once per pattern. */
  method RedactSecrets(text: string) returns (redacted: string)
    ensures redacted == Redacted(text)
    ensures |redacted| == |text|
    ensures forall k :: 0 <= k < |text| && IsSpace(text[k]) ==> redacted[k] == text[k]
    ensures forall k :: 0 <= k < |text| && !NotDelimiter(text[k]) ==> redacted[k] == text[k]
    ensures forall k :: 0 <= k < |text| ==> redacted[k] == text[k] || redacted[k] == Bullet
  {
    if text == "" {
      return text;
    }
    var patterns := Patterns;
    redacted := text;
    for i := 0 to |patterns|
      invariant ApplyAll(patterns[i..], redacted) == ApplyAll(Patterns, text)
    {
      assert patterns[i..][1..] == patterns[i + 1..];
      redacted := Sub(patterns[i], redacted);
    }
    assert patterns[|patterns|..] == [];
    RedactedMasks(text);
  }

  // ---------------------------------------------------------------------
  // What a single match looks like

  /** A character a match may contain: anything but a comma or a semicolon. */
  predicate NotDelimiter(c: char) {
    c != ',' && c != ';'
  }

  /** A character the redactor may turn into a bullet. */
  predicate Maskable(c: char) {
    !IsSpace(c) && NotDelimiter(c)
  }

  predicate LabelText(lit: string) {
    forall k :: 0 <= k < |lit| ==> IsLower(lit[k]) || lit[k] == '_' || lit[k] == '-' || lit[k] == ' '
  }

  lemma LabelsAreText()
    ensures forall j :: 0 <= j < |Labels| ==> |Labels[j]| > 0 && IsLower(Labels[j][0]) && LabelText(Labels[j])
  {
  }

  /** The label that a positive `LabelledMatch` used. */
  lemma {:induction false} LabelledMatchWitness(s: string, i: nat, labels: seq<string>) returns (j: nat)
    requires i <= |s| && LabelledMatch(s, i, labels) > 0
    ensures j < |labels| && LabelMatch(s, i, labels[j]) > 0
    ensures LabelledMatch(s, i, labels) == LabelMatch(s, i, labels[j])
    decreases |labels|
  {
    if LabelMatch(s, i, labels[0]) > 0 {
      j := 0;
    } else {
      var j' := LabelledMatchWitness(s, i, labels[1..]);
      j := j' + 1;
    }
  }

  /** A literal made of label characters holds no delimiter, and one starting with a letter starts on a letter. */
  lemma LiteralChars(s: string, i: nat, lit: string)
    requires Literal(s, i, lit) && LabelText(lit)
    ensures forall k :: i <= k < i + |lit| ==> NotDelimiter(s[k])
    ensures |lit| > 0 && IsLower(lit[0]) ==> IsLetter(s[i])
  {
    forall k | i <= k < i + |lit| ensures NotDelimiter(s[k]) {
      assert LowerChar(s[k]) == lit[k - i];
    }
    if |lit| > 0 && IsLower(lit[0]) {
      assert LowerChar(s[i]) == lit[0];
    }
  }

  lemma TailHasNoDelimiter(s: string, k: nat)
    requires k <= |s|
    ensures forall x :: k <= x < k + AssignmentTail(s, k) ==> NotDelimiter(s[x])
  {
    if AssignmentTail(s, k) > 0 {
      RunChars(s, k, Whitespace);
      var k1 := k + Run(s, k, Whitespace);
      RunChars(s, k1 + 1, Whitespace);
      var k2 := k1 + 1 + Run(s, k1 + 1, Whitespace);
      RunChars(s, k2, ValueChar);
    }
  }

  lemma PrefixedHasNoDelimiter(s: string, i: nat, lit: string, cls: CharClass)
    requires i <= |s| && LabelText(lit) && cls != ValueChar
    ensures forall x :: i <= x < i + PrefixedMatch(s, i, lit, cls) ==> NotDelimiter(s[x])
  {
    if PrefixedMatch(s, i, lit, cls) > 0 {
      LiteralChars(s, i, lit);
      RunChars(s, i + |lit|, Whitespace);
      RunChars(s, i + |lit| + Run(s, i + |lit|, Whitespace), cls);
    }
  }

  /** Every match starts on a letter. */
  lemma MatchStartsWithLetter(p: Pattern, s: string, i: nat)
    requires i <= |s| && Match(p, s, i) > 0
    ensures i < |s| && IsLetter(s[i])
  {
    match p
    case SecretAssignment =>
      LabelsAreText();
      var j := LabelledMatchWitness(s, i, Labels);
      LiteralChars(s, i, Labels[j]);
    case BearerToken =>
      LiteralChars(s, i, "bearer");
    case SshRsaKey =>
      LiteralChars(s, i, "ssh-rsa");
  }

  /** A labelled match, over any labels made of label characters, holds no delimiter. */
  lemma LabelledHasNoDelimiter(s: string, i: nat, labels: seq<string>)
    requires i <= |s|
    requires forall j :: 0 <= j < |labels| ==> LabelText(labels[j])
    ensures forall k :: i <= k < i + LabelledMatch(s, i, labels) ==> NotDelimiter(s[k])
  {
    if LabelledMatch(s, i, labels) > 0 {
      var j := LabelledMatchWitness(s, i, labels);
      LiteralChars(s, i, labels[j]);
      TailHasNoDelimiter(s, i + |labels[j]|);
    }
  }

  /** No match holds a comma or a semicolon. */
  lemma MatchHasNoDelimiter(p: Pattern, s: string, i: nat)
    requires i <= |s|
    ensures forall k :: i <= k < i + Match(p, s, i) ==> NotDelimiter(s[k])
  {
    match p
    case SecretAssignment =>
      LabelsAreText();
      LabelledHasNoDelimiter(s, i, Labels);
    case BearerToken =>
      PrefixedHasNoDelimiter(s, i, "bearer", TokenChar);
    case SshRsaKey =>
      PrefixedHasNoDelimiter(s, i, "ssh-rsa", BlobChar);
  }

  // ---------------------------------------------------------------------
  // Masking

  /** `t` is `s` with some characters replaced by bullets, none of them whitespace or a delimiter. */
  predicate MaskOf(t: string, s: string) {
    |t| == |s| && forall k :: 0 <= k < |s| ==> t[k] == s[k] || (t[k] == Bullet && Maskable(s[k]))
  }

  lemma MaskOfTrans(t: string, u: string, s: string)
    requires MaskOf(t, u) && MaskOf(u, s)
    ensures MaskOf(t, s)
  {
  }

  /** A match in progress at `k` began at an earlier index `j` and ends where that match ends. */
  lemma {:induction false} RestWitness(ms: seq<nat>, k: nat) returns (j: nat)
    requires k < |ms| && Rest(ms, k) > 0
    ensures j < k && ms[j] > 0 && k + Rest(ms, k) == j + ms[j]
    decreases k
  {
    if Rest(ms, k - 1) > 0 {
      j := RestWitness(ms, k - 1);
    } else {
      j := k - 1;
    }
  }

  /** A masked index lies inside a match found at or before it. */
  lemma CoveredWitness(ms: seq<nat>, s: string, k: nat) returns (j: nat)
    requires MatchTable(ms, s) && k < |s| && Covered(ms, k)
    ensures j <= k < j + ms[j]
  {
    if ms[k] > 0 {
      j := k;
    } else {
      j := RestWitness(ms, k);
    }
  }

  /** An index that no match found at or before it reaches is not masked. */
  lemma UncoveredKept(ms: seq<nat>, s: string, k: nat)
    requires MatchTable(ms, s) && k < |s|
    requires forall j :: 0 <= j <= k ==> j + ms[j] <= k
    ensures !Covered(ms, k)
  {
    if Covered(ms, k) {
      var j := CoveredWitness(ms, s, k);
      assert false;
    }
  }

  /** One `re.sub` pass only masks. */
  lemma SubMasks(p: Pattern, s: string)
    ensures MaskOf(Sub(p, s), s)
  {
    var ms := Matches(p, s);
    var r := Sub(p, s);
    forall k | 0 <= k < |s| ensures r[k] == s[k] || (r[k] == Bullet && Maskable(s[k])) {
      if Covered(ms, k) {
        var j := CoveredWitness(ms, s, k);
        MatchHasNoDelimiter(p, s, j);
      }
    }
  }

  /** Each match of the pattern shows a bullet where it starts. */
  lemma SubMasksMatchStart(p: Pattern, s: string, j: nat)
    requires j <= |s| && Match(p, s, j) > 0
    ensures j < |s| && Sub(p, s)[j] == Bullet
  {
    MatchStartsWithLetter(p, s, j);
  }

  /** A character that no match of the pattern covers is left as it was. */
  lemma SubKeepsUncovered(p: Pattern, s: string, k: nat)
    requires k < |s| && forall j :: 0 <= j <= k ==> j + Match(p, s, j) <= k
    ensures Sub(p, s)[k] == s[k]
  {
    UncoveredKept(Matches(p, s), s, k);
  }

  /** The pattern matches nowhere in `s`. */
  predicate MatchFree(p: Pattern, s: string) {
    forall j :: 0 <= j <= |s| ==> Match(p, s, j) == 0
  }

  /** `re.sub` with a pattern that matches nowhere returns its input. */
  lemma SubIdentity(p: Pattern, s: string)
    requires MatchFree(p, s)
    ensures Sub(p, s) == s
  {
    forall k | 0 <= k < |s| ensures Sub(p, s)[k] == s[k] {
      UncoveredKept(Matches(p, s), s, k);
    }
  }

  lemma {:induction false} ApplyAllMasks(ps: seq<Pattern>, s: string)
    ensures MaskOf(ApplyAll(ps, s), s)
    decreases |ps|
  {
    if ps != [] {
      var u := Sub(ps[0], s);
      SubMasks(ps[0], s);
      ApplyAllMasks(ps[1..], u);
      MaskOfTrans(ApplyAll(ps[1..], u), u, s);
    }
  }

  /** The redactor only turns non-whitespace characters other than commas and semicolons into bullets. */
  lemma RedactedMasks(text: string)
    ensures MaskOf(Redacted(text), text)
  {
    if text != "" {
      ApplyAllMasks(Patterns, text);
    }
  }

  // ---------------------------------------------------------------------
  // Masking never creates a match

  lemma LiteralMasked(t: string, s: string, i: nat, lit: string)
    requires MaskOf(t, s) && Literal(t, i, lit) && LabelText(lit)
    ensures Literal(s, i, lit)
  {
    forall k | 0 <= k < |lit| ensures LowerChar(s[i + k]) == lit[k] {
      assert LowerChar(t[i + k]) == lit[k];
    }
  }

  /** Masking changes neither which characters are whitespace nor which are value characters. */
  lemma {:induction false} RunMasked(t: string, s: string, i: nat, cls: CharClass)
    requires MaskOf(t, s) && i <= |s| && (cls == Whitespace || cls == ValueChar)
    ensures Run(t, i, cls) == Run(s, i, cls)
    decreases |s| - i
  {
    if i < |s| {
      RunMasked(t, s, i + 1, cls);
    }
  }

  lemma TailMasked(t: string, s: string, k: nat)
    requires MaskOf(t, s) && k <= |s| && AssignmentTail(t, k) > 0
    ensures AssignmentTail(s, k) > 0
  {
    RunMasked(t, s, k, Whitespace);
    var k1 := k + Run(s, k, Whitespace);
    assert k1 < |s| && (t[k1] == ':' || t[k1] == '=');
    assert s[k1] == t[k1];
    RunMasked(t, s, k1 + 1, Whitespace);
    var k2 := k1 + 1 + Run(s, k1 + 1, Whitespace);
    RunMasked(t, s, k2, ValueChar);
    assert Run(s, k2, ValueChar) > 0;
  }

  lemma {:induction false} LabelledMasked(t: string, s: string, i: nat, labels: seq<string>)
    requires MaskOf(t, s) && i <= |s| && LabelledMatch(t, i, labels) > 0
    requires forall j :: 0 <= j < |labels| ==> LabelText(labels[j])
    ensures LabelledMatch(s, i, labels) > 0
    decreases |labels|
  {
    if LabelMatch(t, i, labels[0]) > 0 {
      LiteralMasked(t, s, i, labels[0]);
      TailMasked(t, s, i + |labels[0]|);
    } else if LabelMatch(s, i, labels[0]) == 0 {
      LabelledMasked(t, s, i, labels[1..]);
    }
  }

  lemma PrefixedMasked(t: string, s: string, i: nat, lit: string, cls: CharClass)
    requires MaskOf(t, s) && i <= |s| && PrefixedMatch(t, i, lit, cls) > 0
    requires LabelText(lit) && (cls == TokenChar || cls == BlobChar)
    ensures PrefixedMatch(s, i, lit, cls) > 0
  {
    LiteralMasked(t, s, i, lit);
    RunMasked(t, s, i + |lit|, Whitespace);
    var w := Run(s, i + |lit|, Whitespace);
    assert InClass(t[i + |lit| + w], cls);
  }

  /** A match in a masked text was already a match, at the same index, before masking. */
  lemma MatchMasked(p: Pattern, t: string, s: string, i: nat)
    requires MaskOf(t, s) && i <= |s| && Match(p, t, i) > 0
    ensures Match(p, s, i) > 0
  {
    match p
    case SecretAssignment =>
      LabelsAreLabelText();
      LabelledMasked(t, s, i, Labels);
    case BearerToken =>
      PrefixedMasked(t, s, i, "bearer", TokenChar);
    case SshRsaKey =>
      PrefixedMasked(t, s, i, "ssh-rsa", BlobChar);
  }

  lemma LabelsAreLabelText()
    ensures forall j :: 0 <= j < |Labels| ==> LabelText(Labels[j])
  {
    LabelsAreText();
  }

  lemma MaskedMatchFree(p: Pattern, t: string, s: string)
    requires MaskOf(t, s) && MatchFree(p, s)
    ensures MatchFree(p, t)
  {
    forall j | 0 <= j <= |t| ensures Match(p, t, j) == 0 {
      if Match(p, t, j) > 0 {
        MatchMasked(p, t, s, j);
      }
    }
  }

  /** A later pass does not bring back a match that an earlier pass removed. */
  lemma SubKeepsMatchFree(q: Pattern, p: Pattern, s: string)
    requires MatchFree(q, s)
    ensures MatchFree(q, Sub(p, s))
  {
    SubMasks(p, s);
    MaskedMatchFree(q, Sub(p, s), s);
  }

  /** After one `re.sub` pass the pattern matches nowhere in the output. */
  lemma SubMatchFree(p: Pattern, s: string)
    ensures MatchFree(p, Sub(p, s))
  {
    var t := Sub(p, s);
    SubMasks(p, s);
    forall j | 0 <= j <= |t| ensures Match(p, t, j) == 0 {
      if Match(p, t, j) > 0 {
        MatchMasked(p, t, s, j);
        MatchStartsWithLetter(p, t, j);
        SubMasksMatchStart(p, s, j);
      }
    }
  }

  // ---------------------------------------------------------------------
  // The whole redactor

  /** Pattern `p` matches nowhere in redacted text. */
  lemma RedactedFreeOf(text: string, p: Pattern)
    requires text != ""
    ensures MatchFree(p, Redacted(text))
  {
    var u1 := Sub(SecretAssignment, text);
    var u2 := Sub(BearerToken, u1);
    RedactedPasses(text);
    match p
    case SecretAssignment =>
      SubMatchFree(SecretAssignment, text);
      SubKeepsMatchFree(SecretAssignment, BearerToken, u1);
      SubKeepsMatchFree(SecretAssignment, SshRsaKey, u2);
    case BearerToken =>
      SubMatchFree(BearerToken, u1);
      SubKeepsMatchFree(BearerToken, SshRsaKey, u2);
    case SshRsaKey =>
      SubMatchFree(SshRsaKey, u2);
  }

  /** None of the three patterns matches anywhere in redacted text. */
  lemma RedactedMatchFree(text: string)
    requires text != ""
    ensures forall p :: MatchFree(p, Redacted(text))
  {
    forall p ensures MatchFree(p, Redacted(text)) {
      RedactedFreeOf(text, p);
    }
  }

  /** Redacting redacted text changes nothing. */
  lemma RedactIdempotent(text: string)
    ensures Redacted(Redacted(text)) == Redacted(text)
  {
    if text != "" {
      var t := Redacted(text);
      RedactedMatchFree(text);
      SubIdentity(SecretAssignment, t);
      SubIdentity(BearerToken, t);
      SubIdentity(SshRsaKey, t);
      RedactedPasses(t);
    }
  }

  /** Wherever the first pattern matches the input, the redacted text shows a bullet. */
  lemma RedactedMasksAssignments(text: string, j: nat)
    requires j < |text| && Match(SecretAssignment, text, j) > 0
    ensures Redacted(text)[j] == Bullet
  {
    var u1 := Sub(SecretAssignment, text);
    SubMasksMatchStart(SecretAssignment, text, j);
    SubMasks(BearerToken, u1);
    SubMasks(SshRsaKey, Sub(BearerToken, u1));
    RedactedPasses(text);
  }

  /** The labels are not anchored to a word start: the `pass` inside `bypass=1` is masked. */
  lemma EmbeddedLabelMasked()
    ensures Redacted("bypass=1")[2] == Bullet
  {
    var s := "bypass=1";
    assert !Literal(s, 2, "password");
    assert Literal(s, 2, "pass");
    assert AssignmentTail(s, 6) == 2;
    RedactedMasksAssignments(s, 2);
  }
}
