/**
 * `parse_ticket_details_simple`, the rule-based reader of ticket details used
 * when language-model parsing is off or fails. It always fills the four
 * fields in the same order: a short description (a few words around the
 * first word that reads like a fault, when a device is mentioned; otherwise
 * the abbreviated input), the input itself as the description, and an impact
 * and an urgency chosen from fixed phrase lists by substring match on the
 * lower-cased input.
 */
module DetailParser {
  import opened PyText
  import opened PyDict

  const DeviceWords: seq<string> := ["laptop", "computer", "pc", "monitor", "screen"]
  const FailureIndicators: seq<string> := ["broken", "not working", "won't", "doesn't", "failed"]

  const HighImpact: seq<string> := ["high impact", "high", "critical", "urgent", "emergency"]
  const MediumImpact: seq<string> := ["medium impact", "medium", "moderate"]
  const LowImpact: seq<string> := ["low impact", "low", "minor"]

  const HighUrgency: seq<string> := ["urgent", "urgently", "asap", "immediate", "high urgency"]
  const MediumUrgency: seq<string> := ["medium urgency", "moderate"]
  const LowUrgency: seq<string> := ["low urgency", "when convenient"]

  /** The level of the first list with a phrase occurring in `text`, medium ("2") when none does. */
  function Level(text: string, high: seq<string>, medium: seq<string>, low: seq<string>): (level: string)
    ensures level == "1" || level == "2" || level == "3"
  {
    if AnyContained(text, high) then "1"
    else if AnyContained(text, medium) then "2"
    else if AnyContained(text, low) then "3"
    else "2"
  }

  function ImpactOf(userInput: string): string {
    Level(Lower(userInput), HighImpact, MediumImpact, LowImpact)
  }

  function UrgencyOf(userInput: string): string {
    Level(Lower(userInput), HighUrgency, MediumUrgency, LowUrgency)
  }

  /** A word reads like a fault when its lower-cased form holds one of the failure indicators. */
  predicate HasIndicator(word: string, indicators: seq<string>) {
    AnyContained(Lower(word), indicators)
  }

  /** The index of the first word that reads like a fault, `|words|` when there is none. */
  function FirstIndicator(words: seq<string>, indicators: seq<string>): (i: nat)
    ensures i <= |words|
    ensures i < |words| ==> HasIndicator(words[i], indicators)
    ensures forall j :: 0 <= j < i ==> !HasIndicator(words[j], indicators)
    decreases |words|
  {
    if words == [] then 0
    else if HasIndicator(words[0], indicators) then 0
    else 1 + FirstIndicator(words[1..], indicators)
  }

  /** `words[max(0, i - 2):min(len(words), i + 3)]` */
  function Window(words: seq<string>, i: nat): seq<string>
    requires i < |words|
  {
    words[(if i >= 2 then i - 2 else 0)..(if i + 3 <= |words| then i + 3 else |words|)]
  }

  /**
   * The short description read from the words of the input: the window around
   * the first word holding one of `indicators`, or the abbreviated input when
   * no word does.
   */
  function WindowOrAbbreviation(userInput: string, words: seq<string>, indicators: seq<string>): string {
    var i := FirstIndicator(words, indicators);
    if i < |words| then Join(Window(words, i), " ") else Abbreviate(userInput)
  }

  /** The words are only looked at when the input mentions one of `devices`. */
  function ShortDescription(userInput: string, devices: seq<string>, indicators: seq<string>): string {
    if AnyContained(Lower(userInput), devices) then WindowOrAbbreviation(userInput, Split(userInput), indicators)
    else Abbreviate(userInput)
  }

  function ShortDescriptionOf(userInput: string): string {
    ShortDescription(userInput, DeviceWords, FailureIndicators)
  }

  /** The dictionary `parse_ticket_details_simple` returns, keys in insertion order. */
  function SimpleDetails(userInput: string): Dict<string> {
    Fields(ShortDescriptionOf(userInput), userInput, ImpactOf(userInput), UrgencyOf(userInput))
  }

  /** The four ticket fields in the order the parser fills them. */
  function Fields(short: string, description: string, impact: string, urgency: string): Dict<string> {
    [("short_description", short), ("description", description), ("impact", impact), ("urgency", urgency)]
  }

  /** Reading a key of the four-field record. */
  lemma FieldsGet(short: string, description: string, impact: string, urgency: string, k: string)
    ensures Get(Fields(short, description, impact, urgency), k) ==
      if k == "short_description" then Some(short)
      else if k == "description" then Some(description)
      else if k == "impact" then Some(impact)
      else if k == "urgency" then Some(urgency)
      else None
  {
    var a, b, c, e := ("short_description", short), ("description", description), ("impact", impact), ("urgency", urgency);
    assert Fields(short, description, impact, urgency) == [a] + ([b] + ([c] + [e]));
    GetCons(a, [b] + ([c] + [e]), k);
    GetCons(b, [c] + [e], k);
    GetCons(c, [e], k);
    GetCons(e, [], k);
  }

  /** The record has exactly the four keys, each once. */
  lemma FieldsKeys(short: string, description: string, impact: string, urgency: string)
    ensures var d := Fields(short, description, impact, urgency);
      UniqueKeys(d) && Keys(d) == {"short_description", "description", "impact", "urgency"}
  {
    var a, b, c, e := ("short_description", short), ("description", description), ("impact", impact), ("urgency", urgency);
    assert |a.0| == 17 && |b.0| == 11 && |c.0| == 6 && |e.0| == 7;
    assert Fields(short, description, impact, urgency) == [a] + ([b] + ([c] + [e]));
    KeysCons(a, [b] + ([c] + [e]));
    KeysCons(b, [c] + [e]);
    KeysCons(c, [e]);
    KeysCons(e, []);
    assert Keys<string>([]) == {};
  }

  /** `parse_ticket_details_simple`, filling `details` field by field. */
  method ParseTicketDetailsSimple(userInput: string) returns (details: Dict<string>)
    ensures details == SimpleDetails(userInput)
  {
    var inputLower := Lower(userInput);
    if AnyContained(inputLower, DeviceWords) {
      var words := Split(userInput);
      details := ScanWords(userInput, words, FailureIndicators);
    } else {
      details := Set([], "short_description", Abbreviate(userInput));
    }
    var impact := Level(inputLower, HighImpact, MediumImpact, LowImpact);
    var urgency := Level(inputLower, HighUrgency, MediumUrgency, LowUrgency);
    SetFields(ShortDescriptionOf(userInput), userInput, impact, urgency);
    details := Set(details, "description", userInput);
    details := Set(details, "impact", impact);
    details := Set(details, "urgency", urgency);
  }

  /**
   * The `for i, word in enumerate(words)` loop, which stops at the first word
   * holding an indicator, followed by the abbreviation when no word did.
   */
  method ScanWords(userInput: string, words: seq<string>, indicators: seq<string>) returns (details: Dict<string>)
    requires forall k :: 0 <= k < |words| ==> IsWord(words[k])
    ensures details == [("short_description", WindowOrAbbreviation(userInput, words, indicators))]
  {
    details := [];
    var i := 0;
    while i < |words|
      invariant i <= |words| && details == []
      invariant forall j :: 0 <= j < i ==> !HasIndicator(words[j], indicators)
    {
      if AnyContained(Lower(words[i]), indicators) {
        var start := if i >= 2 then i - 2 else 0;
        var end := if i + 3 <= |words| then i + 3 else |words|;
        assert i == FirstIndicator(words, indicators);
        assert words[start..end][0] == words[start];
        JoinNonEmpty(words[start..end], " ");
        SingleEntry("short_description", Join(words[start..end], " "));
        details := Set(details, "short_description", Join(words[start..end], " "));
        break;
      }
      i := i + 1;
    }
    SingleEntry("short_description", Abbreviate(userInput));
    if !Truthy(Get(details, "short_description")) {
      details := Set(details, "short_description", Abbreviate(userInput));
    }
  }

  /** Assigning to an empty dictionary, and reading the one entry back. */
  lemma SingleEntry(k: string, v: string)
    ensures Set([], k, v) == [(k, v)]
    ensures Get([(k, v)], k) == Some(v)
    ensures Get<string>([], k) == None
  {
  }

  /** Assigning the last three fields, in order, to a dictionary holding only the short description. */
  lemma SetFields(short: string, description: string, impact: string, urgency: string)
    ensures Set(Set(Set([("short_description", short)], "description", description), "impact", impact), "urgency", urgency)
      == Fields(short, description, impact, urgency)
  {
    var a, b, c, e := ("short_description", short), ("description", description), ("impact", impact), ("urgency", urgency);
    assert |a.0| == 17 && |b.0| == 11 && |c.0| == 6 && |e.0| == 7;
    SetCons(a, [], b.0, b.1);
    assert Set([a], b.0, b.1) == [a, b];
    SetCons(a, [b], c.0, c.1);
    SetCons(b, [], c.0, c.1);
    assert Set([a, b], c.0, c.1) == [a, b, c];
    SetCons(a, [b, c], e.0, e.1);
    SetCons(b, [c], e.0, e.1);
    SetCons(c, [], e.0, e.1);
  }

  /**
   * The precedence of the level lists: high whenever a high phrase occurs,
   * low only when no high and no medium phrase occurs, and medium otherwise
   * (including when nothing matches).
   */
  lemma LevelSpec(text: string, high: seq<string>, medium: seq<string>, low: seq<string>)
    ensures Level(text, high, medium, low) == "1" <==> exists k :: 0 <= k < |high| && Contains(text, high[k])
    ensures Level(text, high, medium, low) == "3" <==>
      && (forall k :: 0 <= k < |high| ==> !Contains(text, high[k]))
      && (forall k :: 0 <= k < |medium| ==> !Contains(text, medium[k]))
      && (exists k :: 0 <= k < |low| && Contains(text, low[k]))
  {
    AnyContainedIff(text, high);
    AnyContainedIff(text, medium);
    AnyContainedIff(text, low);
  }

  /** The result always has the four keys, the description is the input and both levels are "1", "2" or "3". */
  lemma SimpleDetailsFields(userInput: string)
    ensures var d := SimpleDetails(userInput);
      && UniqueKeys(d)
      && Keys(d) == {"short_description", "description", "impact", "urgency"}
      && Get(d, "description") == Some(userInput)
      && Get(d, "impact").value in {"1", "2", "3"}
      && Get(d, "urgency").value in {"1", "2", "3"}
  {
    var short, impact, urgency := ShortDescriptionOf(userInput), ImpactOf(userInput), UrgencyOf(userInput);
    FieldsKeys(short, userInput, impact, urgency);
    FieldsGet(short, userInput, impact, urgency, "description");
    FieldsGet(short, userInput, impact, urgency, "impact");
    FieldsGet(short, userInput, impact, urgency, "urgency");
  }

  /**
   * When some word holds an indicator, the short description is the words
   * from two before to two after the first such word (as many as exist, at
   * most five, that word included), and it is never empty; otherwise it is
   * the abbreviated input.
   */
  lemma WindowSpec(userInput: string, words: seq<string>, indicators: seq<string>)
    requires forall k :: 0 <= k < |words| ==> IsWord(words[k])
    ensures var short := WindowOrAbbreviation(userInput, words, indicators);
      if exists i :: 0 <= i < |words| && HasIndicator(words[i], indicators) then
        exists i :: 0 <= i < |words| && HasIndicator(words[i], indicators)
          && (forall j :: 0 <= j < i ==> !HasIndicator(words[j], indicators))
          && var w := Window(words, i);
          && 1 <= |w| <= 5 && words[i] in w && short == Join(w, " ") && short != ""
      else short == Abbreviate(userInput)
  {
    var i := FirstIndicator(words, indicators);
    if i < |words| {
      var w := Window(words, i);
      var start := if i >= 2 then i - 2 else 0;
      assert w[0] == words[start];
      assert w[i - start] == words[i];
      JoinNonEmpty(w, " ");
    }
  }

  /** The two-word indicator "not working" never occurs in a single whitespace-free word. */
  lemma NotWorkingNeverInOneWord(word: string)
    requires IsWord(word)
    ensures !Contains(Lower(word), "not working")
  {
    forall k | 0 <= k < |word| ensures Lower(word)[k] != ' ' {
      assert !IsSpace(word[k]);
    }
    NotContainsChar(Lower(word), "not working", ' ');
  }

  /**
   * Matching is by substring, so "low" counts wherever it occurs, "slow"
   * included: a lower-cased input holding "low" and none of the letters every
   * high and medium phrase contains is low impact.
   */
  lemma LowAsSubstring(userInput: string)
    requires Contains(Lower(userInput), "low")
    requires forall c :: c in "hcue" ==> c !in Lower(userInput)
    ensures ImpactOf(userInput) == "3"
  {
    var text := Lower(userInput);
    NotContainsChar(text, "high impact", 'h');
    NotContainsChar(text, "high", 'h');
    NotContainsChar(text, "critical", 'c');
    NotContainsChar(text, "urgent", 'u');
    NotContainsChar(text, "emergency", 'e');
    NotContainsChar(text, "medium impact", 'e');
    NotContainsChar(text, "medium", 'e');
    NotContainsChar(text, "moderate", 'e');
    AnyContainedIff(text, HighImpact);
    AnyContainedIff(text, MediumImpact);
    AnyContainedIff(text, LowImpact);
  }

  /** "slow laptop", in any letter case, is low impact. */
  lemma SlowLaptopIsLowImpact(userInput: string)
    requires Lower(userInput) == "slow laptop"
    ensures ImpactOf(userInput) == "3"
  {
    assert OccursAt(Lower(userInput), "low", 1);
    ContainsAt(Lower(userInput), "low");
    SlowLaptopLetters(Lower(userInput));
    LowAsSubstring(userInput);
  }

  /** "slow laptop" has none of the letters that rule out the other impact phrases. */
  lemma SlowLaptopLetters(text: string)
    requires text == "slow laptop"
    ensures forall c :: c in "hcue" ==> c !in text
  {
    forall c | c in "hcue" ensures c !in text {
      assert c == 'h' || c == 'c' || c == 'u' || c == 'e';
    }
  }
}
