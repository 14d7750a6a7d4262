/**
 * The narrative engine (`AdventureEngine` in llm_adventure.py): building the
 * prompt sent to the language model from the adventure history, and splitting
 * the model's reply into a narrative and three action options.
 *
 * The engine object keeps its two prompt texts as fields set once by the
 * constructor; the specification functions take those texts as parameters.
 * Each operation is a method with the loops of the original, proved equal to
 * a specification function, and the properties of prompts and parses are
 * lemmas about those functions.
 */
module AdventureEngines {
  import opened Wrappers
  import opened Text

  /** The prompt for the first beat, used whenever the history is empty. */
  const StartingPrompt: string :=
    "You are a narrative generator for a choose-your-own-adventure debugging game. "
    + "Set up the initial scenario for a software engineer facing a critical production issue. "
    + "Describe the initial alert or problem that starts their debugging journey in 2-3 sentences. "
    + "Include realistic technical details like error messages or monitoring alerts.\n\n"
    + "Provide exactly 3 initial debugging approaches as options, formatted as:\n"
    + "1. [Action verb] [specific technical approach]\n"
    + "2. [Action verb] [specific technical approach]\n"
    + "3. [Action verb] [specific technical approach]\n\n"
    + "Each option MUST:\n"
    + "- Start with an action verb (e.g., Check, Deploy, Monitor)\n"
    + "- Describe a specific technical action\n"
    + "- Be relevant to investigating the initial problem"

  /** The head of every later prompt; the history lines follow it. */
  const IterationPrompt: string :=
    "You are continuing a debugging adventure narrative. "
    + "Based on the engineer's previous actions, describe the next development in 2-3 sentences. "
    + "Keep the narrative focused and technical.\n\n"
    + "Previous actions and results:\n"

  /** One step of the adventure: the option taken and the narrative it was taken in. */
  datatype HistoryEntry = HistoryEntry(choice: string, narrative: string)

  // ---------------------------------------------------------------------
  // Prompt builder
  // ---------------------------------------------------------------------

  /** The line a history entry contributes to the prompt. */
  function EntryLine(e: HistoryEntry): string {
    "[Action: " + e.choice + ", Result: " + e.narrative + "]\n"
  }

  /** The lines of all entries, oldest first. */
  function HistoryText(history: seq<HistoryEntry>): string {
    if history == [] then "" else HistoryText(history[..|history| - 1]) + EntryLine(history[|history| - 1])
  }

  /** The history text of two runs of entries is the text of the first followed by that of the second. */
  lemma {:induction false} HistoryTextConcat(a: seq<HistoryEntry>, b: seq<HistoryEntry>)
    ensures HistoryText(a + b) == HistoryText(a) + HistoryText(b)
    decreases |b|
  {
    if b == [] {
      assert a + b == a;
    } else {
      var c, e := b[..|b| - 1], b[|b| - 1];
      assert (a + b)[..|a + b| - 1] == a + c;
      assert (a + b)[|a + b| - 1] == e;
      assert HistoryText(a + b) == HistoryText(a + c) + EntryLine(e);
      HistoryTextConcat(a, c);
      assert HistoryText(b) == HistoryText(c) + EntryLine(e);
    }
  }

  /**
   * Entry `k` contributes its line right after the lines of the entries before
   * it and right before those of the entries after it: one line per entry, in
   * history order.
   */
  lemma {:induction false} HistoryLineOrder(history: seq<HistoryEntry>, k: nat)
    requires k < |history|
    ensures HistoryText(history)
         == HistoryText(history[..k]) + EntryLine(history[k]) + HistoryText(history[k + 1..])
  {
    var front := history[..k + 1];
    assert history == front + history[k + 1..];
    HistoryTextConcat(front, history[k + 1..]);
    assert front[..|front| - 1] == history[..k];
  }

  /** The fixed pieces of text a later prompt is assembled from. */
  const ChoiceIntro: string := "\nThe engineer chose to: "
  const RequestHead: string := "\nNow describe what happens next, maintaining technical accuracy and suspense. "
  const CountIntro: string := "End with EXACTLY "
  const CountTail: string := " clearly formatted action options (no more, no less):\n"
  const TemplateTail: string := ". [Action verb] [specific technical approach]"

  /** The sentence naming the option just taken; nothing when no option was given or it is empty. */
  function ChoiceSentence(chosen: Option<string>): string {
    if chosen.Some? && chosen.value != "" then ChoiceIntro + chosen.value + ". " else ""
  }

  /** `str(n)` for the option numbers, which are single digits. */
  function Numeral(n: nat): (r: string)
    requires n < 10
    ensures |r| == 1 && IsDigit(r[0]) && DigitValue(r[0]) == n
  {
    [DigitChar(n)]
  }

  /** The request for the next beat, stating the exact number of options wanted. */
  function RequestText(numOptions: nat): string
    requires numOptions < 10
  {
    RequestHead + (CountIntro + Numeral(numOptions) + CountTail)
  }

  /** The template of option `i`, without its line break. */
  function PlaceholderText(i: nat): string
    requires i < 10
  {
    Numeral(i) + TemplateTail
  }

  /** Template lines numbered 1 to `n`. */
  function Placeholders(n: nat): string
    requires n < 10
  {
    if n == 0 then "" else Placeholders(n - 1) + (PlaceholderText(n) + "\n")
  }

  /** Everything a later prompt accumulates before the final right-strip. */
  function PromptBody(iteration: string, history: seq<HistoryEntry>, chosen: Option<string>, numOptions: nat): string
    requires numOptions < 10
  {
    iteration + HistoryText(history) + ChoiceSentence(chosen) + RequestText(numOptions) + Placeholders(numOptions)
  }

  /**
   * `generate_prompt`, for an engine whose prompt texts are `starting` and
   * `iteration`: the starting text for an empty history, otherwise the
   * accumulated prompt without trailing whitespace.
   */
  function Prompt(starting: string, iteration: string, history: seq<HistoryEntry>, chosen: Option<string>, numOptions: nat): (r: string)
    requires numOptions < 10
    ensures history == [] ==> r == starting
    ensures history != [] ==> r == [] || !IsSpace(r[|r| - 1])
  {
    if history == [] then starting else RStrip(PromptBody(iteration, history, chosen, numOptions))
  }

  /** A right strip removes a single final line break after a non-space. */
  lemma RStripNewline(s: string)
    requires s != [] && !IsSpace(s[|s| - 1])
    ensures RStrip(s + "\n") == s
  {
    assert (s + "\n")[..|s|] == s;
  }

  /**
   * The layout of every later prompt: the iteration text, one line per entry,
   * the chosen-option sentence, the request naming the count, and the numbered
   * templates, the last one without its line break.
   */
  lemma {:induction false} PromptLayout(starting: string, iteration: string, history: seq<HistoryEntry>, chosen: Option<string>, numOptions: nat)
    requires history != [] && 1 <= numOptions < 10
    ensures Prompt(starting, iteration, history, chosen, numOptions)
         == iteration + HistoryText(history) + ChoiceSentence(chosen) + RequestText(numOptions)
            + Placeholders(numOptions - 1) + PlaceholderText(numOptions)
  {
    var front := iteration + HistoryText(history) + ChoiceSentence(chosen) + RequestText(numOptions);
    var head := front + Placeholders(numOptions - 1) + PlaceholderText(numOptions);
    LastPlaceholder(front, numOptions);
    RStripNewline(head);
  }

  /** The templates end with the last one and its line break, and the last one ends with ']'. */
  lemma LastPlaceholder(front: string, n: nat)
    requires 1 <= n < 10
    ensures var head := front + Placeholders(n - 1) + PlaceholderText(n);
      front + Placeholders(n) == head + "\n" && head != [] && !IsSpace(head[|head| - 1])
  {
    var last := PlaceholderText(n);
    assert last == Numeral(n) + TemplateTail;
    assert last[|last| - 1] == ']';
    var head := front + Placeholders(n - 1) + last;
    assert head[|head| - 1] == last[|last| - 1];
  }

  /**
   * The chosen-option sentence is what sets a prompt with a chosen option
   * apart from one without: the two prompts agree exactly when the option is
   * empty.
   */
  lemma ChoiceSentenceIffChosen(starting: string, iteration: string, history: seq<HistoryEntry>, option: string, numOptions: nat)
    requires history != [] && 1 <= numOptions < 10
    ensures Prompt(starting, iteration, history, Some(option), numOptions)
         == Prompt(starting, iteration, history, None, numOptions)
      <==> option == ""
  {
    PromptLayout(starting, iteration, history, Some(option), numOptions);
    PromptLayout(starting, iteration, history, None, numOptions);
  }

  /** The loop over the history: one line appended per entry, oldest first. */
  method AppendHistory(prompt: string, history: seq<HistoryEntry>) returns (r: string)
    ensures r == prompt + HistoryText(history)
  {
    r := prompt;
    for k := 0 to |history|
      invariant r == prompt + HistoryText(history[..k])
    {
      assert history[..k + 1][..k] == history[..k];
      r := r + EntryLine(history[k]);
    }
    assert history[..|history|] == history;
  }

  /** The loop over the option count: templates numbered 1 to `numOptions` appended. */
  method AppendTemplates(prompt: string, numOptions: nat) returns (r: string)
    requires numOptions < 10
    ensures r == prompt + Placeholders(numOptions)
  {
    r := prompt;
    for i := 0 to numOptions
      invariant r == prompt + Placeholders(i)
    {
      r := r + ([DigitChar(i + 1)] + TemplateTail + "\n");
    }
  }

  // ---------------------------------------------------------------------
  // Response parser
  // ---------------------------------------------------------------------

  /** The parsed beat: the narrative and the options offered. */
  datatype Beat = Beat(narrative: string, options: seq<string>)

  /** The reply had fewer than three option lines, so indexing the third option fails. */
  datatype ParseError = IndexError(found: nat)

  /** The verbs an option may start with (compared on its lower-case form). */
  const ActionVerbs: seq<string> := ["check", "deploy", "run", "monitor", "debug", "analyze", "restart", "test"]

  /** First two characters, or fewer when the string is shorter. */
  function FirstTwo(s: string): (r: string)
    ensures r <= s && |r| == if |s| < 2 then |s| else 2
  {
    if |s| < 2 then s else s[..2]
  }

  /** A stripped line is an option line: non-empty, a digit first, and a '.' within its first two characters. */
  predicate IsOptionLine(stripped: string) {
    stripped != [] && IsDigit(stripped[0]) && '.' in FirstTwo(stripped)
  }

  /** The line is an option line once stripped. */
  predicate IsOptionText(line: string) {
    IsOptionLine(Strip(line))
  }

  /** Position of the first '.' in `s`. */
  function DotIndex(s: string): (k: nat)
    requires '.' in s
    ensures k < |s|
  {
    if s[0] == '.' then 0 else DotIndex(s[1..]) + 1
  }

  /** The position found holds a '.', and there is none before it. */
  lemma {:induction false} DotIndexIsFirst(s: string)
    requires '.' in s
    ensures s[DotIndex(s)] == '.' && '.' !in s[..DotIndex(s)]
  {
    if s[0] != '.' {
      DotIndexIsFirst(s[1..]);
      var j := DotIndex(s[1..]);
      assert s[..j + 1] == [s[0]] + s[1..][..j];
    }
  }

  /** `s.split('.', 1)[1]`: what follows the first '.'. */
  function AfterFirstDot(s: string): string
    requires '.' in s
  {
    s[DotIndex(s) + 1..]
  }

  /** What follows the first '.' is the suffix of `s` after a '.' that has no '.' before it. */
  lemma AfterFirstDotSpec(s: string)
    requires '.' in s
    ensures var r := AfterFirstDot(s);
      |r| < |s| && r == s[|s| - |r|..] && s[|s| - |r| - 1] == '.' && '.' !in s[..|s| - |r| - 1]
  {
    DotIndexIsFirst(s);
  }

  /** The lower-case form of `s` begins with one of the action verbs. */
  predicate StartsWithVerb(s: string) {
    StartsWithAny(ActionVerbs, Lower(s))
  }

  /** `any(s.startswith(v) for v in verbs)`. */
  predicate StartsWithAny(verbs: seq<string>, s: string) {
    verbs != [] && (verbs[0] <= s || StartsWithAny(verbs[1..], s))
  }

  /** A string that starts with any one of the verbs passes the test, wherever the verb is in the list. */
  lemma {:induction false} StartsWithAnyAt(verbs: seq<string>, s: string, i: nat)
    requires i < |verbs| && verbs[i] <= s
    ensures StartsWithAny(verbs, s)
    decreases i
  {
    if i > 0 && !(verbs[0] <= s) {
      StartsWithAnyAt(verbs[1..], s, i - 1);
    }
  }

  /** A string that passes the test starts with one of the verbs: the converse of `StartsWithAnyAt`. */
  lemma {:induction false} StartsWithAnyWitness(verbs: seq<string>, s: string)
    requires StartsWithAny(verbs, s)
    ensures exists i :: 0 <= i < |verbs| && verbs[i] <= s
  {
    if !(verbs[0] <= s) {
      StartsWithAnyWitness(verbs[1..], s);
      var i :| 0 <= i < |verbs[1..]| && verbs[1..][i] <= s;
      assert verbs[i + 1] <= s;
    }
  }

  /** An option the parser can hand out: empty, or led by an action verb, with no surrounding whitespace. */
  predicate WellFormedOption(o: string) {
    IsStripped(o) && (o == "" || StartsWithVerb(o))
  }

  /** Every option in the list is well formed. */
  predicate WellFormedOptions(options: seq<string>) {
    forall i :: 0 <= i < |options| ==> WellFormedOption(options[i])
  }

  /** Forces the action-verb format: a non-empty text not led by a verb gets "Debug " in front. */
  function ForceVerb(cleaned: string): string {
    if cleaned != "" && !StartsWithVerb(cleaned) then "Debug " + cleaned else cleaned
  }

  /**
   * A trimmed text comes out of the verb check well formed, unchanged when it
   * is empty or already verb-led, and always as the tail of the result.
   */
  lemma ForceVerbSpec(cleaned: string)
    requires IsStripped(cleaned)
    ensures WellFormedOption(ForceVerb(cleaned))
    ensures StartsWithVerb(cleaned) || cleaned == "" ==> ForceVerb(cleaned) == cleaned
    ensures cleaned != "" && !StartsWithVerb(cleaned) ==> ForceVerb(cleaned) == "Debug " + cleaned
    ensures var r := ForceVerb(cleaned); |r| >= |cleaned| && r[|r| - |cleaned|..] == cleaned
  {
    if cleaned != "" && !StartsWithVerb(cleaned) {
      DebugPrefixed(cleaned);
    }
  }

  /** A non-empty trimmed text with "Debug " in front is well formed and ends with the text. */
  lemma DebugPrefixed(cleaned: string)
    requires IsStripped(cleaned) && cleaned != ""
    ensures var r := "Debug " + cleaned;
      WellFormedOption(r) && |r| >= |cleaned| && r[|r| - |cleaned|..] == cleaned
  {
    var r := "Debug " + cleaned;
    DebugPrefixIsVerb(cleaned);
    assert r[|r| - |cleaned|..] == cleaned;
    assert r[|r| - 1] == cleaned[|cleaned| - 1];
  }

  /** "Debug " in front of any text makes it start with the verb "debug". */
  lemma DebugPrefixIsVerb(s: string)
    ensures StartsWithVerb("Debug " + s)
  {
    var low := Lower("Debug " + s);
    assert low[0] == 'd' && low[1] == 'e' && low[2] == 'b' && low[3] == 'u' && low[4] == 'g';
    assert ActionVerbs[4] == "debug";
    assert ActionVerbs[4] <= low;
    StartsWithAnyAt(ActionVerbs, low, 4);
  }

  /** A verb-led text begins, once lower-cased, with the first letter of some verb. */
  lemma VerbLetter(s: string)
    ensures StartsWithVerb(s) ==> s != [] && exists i :: 0 <= i < |ActionVerbs| && ActionVerbs[i][0] == Lower(s)[0]
  {
    if StartsWithVerb(s) {
      StartsWithAnyWitness(ActionVerbs, Lower(s));
    }
  }

  /** The non-verb option of the test suite is not verb-led: no verb begins with 'l'. */
  lemma LookIsNoVerb()
    ensures !StartsWithVerb("Look at the logs")
  {
    var look := "Look at the logs";
    assert Lower(look)[0] == 'l';
    VerbLetter(look);
  }

  /** The verb-led option of the test suite starts with "check". */
  lemma CheckIsVerb()
    ensures StartsWithVerb("Check application logs")
  {
    var low := Lower("Check application logs");
    assert low[0] == 'c' && low[1] == 'h' && low[2] == 'e' && low[3] == 'c' && low[4] == 'k';
    assert ActionVerbs[0] <= low;
  }

  /** The test suite's non-verb option gets "Debug " in front; a verb-led one is kept as it is. */
  lemma LookAtTheLogsGetsDebug()
    ensures ForceVerb("Look at the logs") == "Debug " + "Look at the logs"
    ensures ForceVerb("Check application logs") == "Check application logs"
  {
    LookIsNoVerb();
    CheckIsVerb();
  }

  /** One option as the parser cleans it: the numbering dropped, trimmed, and verb-led. */
  function CleanOption(line: string): string
    requires IsOptionLine(line)
  {
    ForceVerb(Strip(AfterFirstDot(line)))
  }

  /**
   * A cleaned option is well formed and is the trimmed text after the line's
   * first '.', with "Debug " in front exactly when that text is non-empty and
   * not led by a verb.
   */
  lemma CleanOptionSpec(line: string)
    requires IsOptionLine(line)
    ensures WellFormedOption(CleanOption(line))
    ensures var r, kept := CleanOption(line), Strip(AfterFirstDot(line));
      |r| >= |kept| && r[|r| - |kept|..] == kept
    ensures var r, kept := CleanOption(line), Strip(AfterFirstDot(line));
      r == if kept != "" && !StartsWithVerb(kept) then "Debug " + kept else kept
  {
    ForceVerbSpec(Strip(AfterFirstDot(line)));
  }

  /** The test suite's non-verb option line is an option line, and the parser cleans it to "Debug Look at the logs". */
  lemma LookAtTheLogsLine()
    ensures var line := "1. Look at the logs";
      IsOptionLine(line) && CleanOption(line) == "Debug " + "Look at the logs"
  {
    var line := "1. Look at the logs";
    LookLineSplit();
    var rest := line[2..];
    assert rest[1..] == "Look at the logs";
    StripLeadingSpace(rest);
    LookAtTheLogsGetsDebug();
  }

  /** "1. Look at the logs" passes the option-line test, and its first '.' is at index 1. */
  lemma LookLineSplit()
    ensures var line := "1. Look at the logs";
      IsOptionLine(line) && DotIndex(line) == 1
  {
    var line := "1. Look at the logs";
    assert FirstTwo(line) == line[..2] == "1.";
    assert line[1..][0] == '.';
  }

  /** Index of the first option line, or the number of lines when there is none. */
  function FirstOption(lines: seq<string>): (k: nat)
    ensures k <= |lines|
    ensures k < |lines| ==> IsOptionText(lines[k])
  {
    if lines == [] then 0
    else if IsOptionText(lines[0]) then 0
    else 1 + FirstOption(lines[1..])
  }

  /** No line before the first option line is an option line. */
  lemma {:induction false} BeforeFirstOption(lines: seq<string>, j: nat)
    requires j < FirstOption(lines)
    ensures !IsOptionText(lines[j])
  {
    if j > 0 {
      BeforeFirstOption(lines[1..], j - 1);
    }
  }

  /** The stripped option lines, in order, wherever they occur. */
  function OptionLines(lines: seq<string>): (r: seq<string>)
    ensures |r| <= |lines|
  {
    if lines == [] then []
    else
      var rest := OptionLines(lines[..|lines| - 1]);
      var last := Strip(lines[|lines| - 1]);
      if IsOptionLine(last) then rest + [last] else rest
  }

  /** Every line the scan collects is a stripped option line. */
  lemma {:induction false} OptionLinesAreOptions(lines: seq<string>)
    ensures forall i :: 0 <= i < |OptionLines(lines)| ==>
              IsOptionLine(OptionLines(lines)[i]) && IsStripped(OptionLines(lines)[i])
  {
    if lines != [] {
      OptionLinesAreOptions(lines[..|lines| - 1]);
    }
  }

  /** Scanning one more line adds its stripped form to the option lines exactly when it is an option line. */
  lemma OptionLinesStep(lines: seq<string>, k: nat)
    requires k < |lines|
    ensures OptionLines(lines[..k + 1])
         == OptionLines(lines[..k]) + if IsOptionText(lines[k]) then [Strip(lines[k])] else []
  {
    assert lines[..k + 1][..k] == lines[..k];
  }

  /** The narrative of a reply with these lines: the lines before the first option line, joined and trimmed. */
  function NarrativeOf(lines: seq<string>): (r: string)
    ensures IsStripped(r)
  {
    Strip(JoinLines(lines[..FirstOption(lines)]))
  }

  /** Every option line cleaned, in order. */
  function CleanAll(optionLines: seq<string>): (r: seq<string>)
    requires forall i :: 0 <= i < |optionLines| ==> IsOptionLine(optionLines[i])
    ensures |r| == |optionLines|
  {
    if optionLines == [] then []
    else CleanAll(optionLines[..|optionLines| - 1]) + [CleanOption(optionLines[|optionLines| - 1])]
  }

  /** Each cleaned option is the cleaning of the option line at the same position. */
  lemma {:induction false} CleanAllAt(optionLines: seq<string>, j: nat)
    requires forall i :: 0 <= i < |optionLines| ==> IsOptionLine(optionLines[i])
    requires j < |optionLines|
    ensures CleanAll(optionLines)[j] == CleanOption(optionLines[j])
  {
    if j < |optionLines| - 1 {
      CleanAllAt(optionLines[..|optionLines| - 1], j);
    }
  }

  /** A reply with these lines: the narrative, then the first three options cleaned, or an index error. */
  function ParseLines(lines: seq<string>): (r: Result<Beat, ParseError>)
    ensures r.Success? <==> |OptionLines(lines)| >= 3
    ensures r.Success? ==> |r.value.options| == 3
    ensures r.Failure? ==> r.error.found == |OptionLines(lines)| < 3
  {
    var opts := OptionLines(lines);
    OptionLinesAreOptions(lines);
    if |opts| < 3 then Failure(IndexError(|opts|))
    else Success(Beat(NarrativeOf(lines), CleanAll(opts)[..3]))
  }

  /** A beat as a successful parse hands it out: three well-formed options and a trimmed narrative. */
  predicate WellFormedBeat(b: Beat) {
    |b.options| == 3 && WellFormedOptions(b.options) && IsStripped(b.narrative)
  }

  /** Every option a successful parse hands out is well formed, and the narrative is trimmed. */
  lemma ParsedBeatWellFormed(lines: seq<string>)
    requires ParseLines(lines).Success?
    ensures WellFormedBeat(ParseLines(lines).value)
  {
    var o := OptionLines(lines);
    ParseFirstThree(lines);
    CleanOptionSpec(o[0]);
    CleanOptionSpec(o[1]);
    CleanOptionSpec(o[2]);
    WellFormedTriple([CleanOption(o[0]), CleanOption(o[1]), CleanOption(o[2])]);
  }

  /**
   * What a successful parse returns: the narrative of the lines and the first
   * three option lines, cleaned, in order; any later option lines are dropped.
   */
  lemma ParseFirstThree(lines: seq<string>)
    ensures forall i :: 0 <= i < |OptionLines(lines)| ==> IsOptionLine(OptionLines(lines)[i])
    ensures var o, r := OptionLines(lines), ParseLines(lines);
      r.Success? ==> r.value == Beat(NarrativeOf(lines), [CleanOption(o[0]), CleanOption(o[1]), CleanOption(o[2])])
  {
    var o := OptionLines(lines);
    OptionLinesAreOptions(lines);
    if |o| >= 3 {
      FirstThreeCleaned(o);
    }
  }

  /** The first three of the cleaned options are the first three option lines, cleaned. */
  lemma FirstThreeCleaned(o: seq<string>)
    requires |o| >= 3 && forall i :: 0 <= i < |o| ==> IsOptionLine(o[i])
    ensures CleanAll(o)[..3] == [CleanOption(o[0]), CleanOption(o[1]), CleanOption(o[2])]
  {
    var c := CleanAll(o);
    CleanAllAt(o, 0);
    CleanAllAt(o, 1);
    CleanAllAt(o, 2);
    TakeThree(c, CleanOption(o[0]), CleanOption(o[1]), CleanOption(o[2]));
  }

  /** A list whose first three elements are `x`, `y` and `z` starts with `[x, y, z]`. */
  lemma TakeThree(c: seq<string>, x: string, y: string, z: string)
    requires |c| >= 3 && c[0] == x && c[1] == y && c[2] == z
    ensures c[..3] == [x, y, z]
  {
  }

  /** Three well-formed options make a well-formed list. */
  lemma WellFormedTriple(o: seq<string>)
    requires |o| == 3 && WellFormedOption(o[0]) && WellFormedOption(o[1]) && WellFormedOption(o[2])
    ensures WellFormedOptions(o)
  {
  }

  /** `parse_response` on the whole reply. */
  function Parse(response: string): Result<Beat, ParseError> {
    ParseLines(SplitLines(response))
  }

  /** The scan of `parse_response`: one pass with the `in_options` flag over the lines. */
  method ScanLines(lines: seq<string>) returns (narrativeLines: seq<string>, optionLines: seq<string>)
    ensures narrativeLines == lines[..FirstOption(lines)]
    ensures optionLines == OptionLines(lines)
  {
    narrativeLines, optionLines := [], [];
    var inOptions := false;
    ghost var first := FirstOption(lines);
    for k := 0 to |lines|
      invariant inOptions <==> first < k
      invariant k <= first ==> narrativeLines == lines[..k]
      invariant first < k ==> narrativeLines == lines[..first]
      invariant optionLines == OptionLines(lines[..k])
    {
      var stripped := Strip(lines[k]);
      var isOption := stripped != [] && IsDigit(stripped[0]) && '.' in FirstTwo(stripped);
      assert isOption == IsOptionText(lines[k]);
      ScanStep(lines, k);
      if isOption {
        inOptions := true;
        optionLines := optionLines + [stripped];
      } else if !inOptions {
        narrativeLines := narrativeLines + [lines[k]];
      }
    }
    assert lines[..|lines|] == lines;
  }

  /** What one more scanned line contributes, and whether the option part has begun. */
  lemma {:induction false} ScanStep(lines: seq<string>, k: nat)
    requires k < |lines|
    ensures OptionLines(lines[..k + 1])
         == OptionLines(lines[..k]) + if IsOptionText(lines[k]) then [Strip(lines[k])] else []
    ensures k < FirstOption(lines) ==> !IsOptionText(lines[k])
    ensures lines[..k + 1] == lines[..k] + [lines[k]]
  {
    OptionLinesStep(lines, k);
    if k < FirstOption(lines) {
      BeforeFirstOption(lines, k);
    }
  }

  /** The cleaning loop of `parse_response`: every option line cleaned, in order. */
  method CleanOptions(optionLines: seq<string>) returns (options: seq<string>)
    requires forall i :: 0 <= i < |optionLines| ==> IsOptionLine(optionLines[i])
    ensures options == CleanAll(optionLines)
  {
    options := [];
    for i := 0 to |optionLines|
      invariant options == CleanAll(optionLines[..i])
    {
      var cleaned := CleanOne(optionLines[i]);
      assert optionLines[..i + 1][..i] == optionLines[..i];
      options := options + [cleaned];
    }
    assert optionLines[..|optionLines|] == optionLines;
  }

  /** The body of the cleaning loop for one option line. */
  method CleanOne(line: string) returns (cleaned: string)
    requires IsOptionLine(line)
    ensures cleaned == CleanOption(line)
  {
    cleaned := Strip(AfterFirstDot(line));
    if cleaned != [] && !StartsWithVerb(cleaned) {
      cleaned := "Debug " + cleaned;
    }
  }

  /** Lines appended after an option line do not move the first option line. */
  lemma FirstOptionExtend(lines: seq<string>, more: seq<string>)
    requires FirstOption(lines) < |lines|
    ensures FirstOption(lines + more) == FirstOption(lines)
  {
    var k, k2 := FirstOption(lines), FirstOption(lines + more);
    assert (lines + more)[k] == lines[k];
    if k2 < k {
      assert (lines + more)[k2] == lines[k2];
      BeforeFirstOption(lines, k2);
    } else if k < k2 {
      BeforeFirstOption(lines + more, k);
    }
  }

  /** A parse depends on the lines only through their option lines and their narrative. */
  lemma ParseLinesDeterminedBy(l1: seq<string>, l2: seq<string>)
    requires OptionLines(l1) == OptionLines(l2) && NarrativeOf(l1) == NarrativeOf(l2)
    ensures ParseLines(l1) == ParseLines(l2)
  {
  }

  /** The narrative depends only on the lines before the first option line. */
  lemma NarrativeDeterminedBy(l1: seq<string>, l2: seq<string>)
    requires FirstOption(l1) == FirstOption(l2) && l1[..FirstOption(l1)] == l2[..FirstOption(l2)]
    ensures NarrativeOf(l1) == NarrativeOf(l2)
  {
  }

  /** Lines after an option line, whatever they are, leave the narrative as it was. */
  lemma NarrativeExtend(lines: seq<string>, more: seq<string>)
    requires FirstOption(lines) < |lines|
    ensures NarrativeOf(lines + more) == NarrativeOf(lines)
  {
    FirstOptionExtend(lines, more);
    PrefixOfAppend(lines, more, FirstOption(lines));
    NarrativeDeterminedBy(lines + more, lines);
  }

  /** A prefix no longer than `a` is unaffected by what follows `a`. */
  lemma PrefixOfAppend(a: seq<string>, b: seq<string>, k: nat)
    requires k <= |a|
    ensures (a + b)[..k] == a[..k]
  {
  }

  /** A line that is not an option line adds no option line. */
  lemma OptionLinesSkip(lines: seq<string>, line: string)
    requires !IsOptionText(line)
    ensures OptionLines(lines + [line]) == OptionLines(lines)
  {
    var all := lines + [line];
    assert all[..|all| - 1] == lines;
  }

  /** A line after the options that is not itself an option line changes nothing. */
  lemma TrailingLineIgnored(lines: seq<string>, trailer: string)
    requires FirstOption(lines) < |lines| && !IsOptionText(trailer)
    ensures ParseLines(lines + [trailer]) == ParseLines(lines)
  {
    OptionLinesSkip(lines, trailer);
    NarrativeExtend(lines, [trailer]);
    ParseLinesDeterminedBy(lines + [trailer], lines);
  }

  /**
   * A reply shaped like the test suite's two-option case (a narrative line, a
   * blank line, two option lines) fails: two option lines are found, and
   * indexing the third option raises.
   */
  lemma TwoOptionReplyFails(narrative: string, first: string, second: string)
    requires !IsOptionText(narrative) && IsOptionText(first) && IsOptionText(second)
    ensures ParseLines([narrative, "", first, second]) == Failure(IndexError(2))
  {
    var lines := [narrative, "", first, second];
    assert lines[..4] == lines;
    OptionLinesStep(lines, 0);
    OptionLinesStep(lines, 1);
    OptionLinesStep(lines, 2);
    OptionLinesStep(lines, 3);
  }

  /**
   * A reply shaped like the test suite's three-option case parses back: the
   * narrative is the narrative line, trimmed, and the three options are the
   * three option lines, cleaned, in order.
   */
  lemma ThreeOptionReplyParses(narrative: string, first: string, second: string, third: string)
    requires !IsOptionText(narrative) && IsOptionText(first) && IsOptionText(second) && IsOptionText(third)
    ensures var r := ParseLines([narrative, "", first, second, third]);
      && r.Success?
      && r.value.narrative == Strip(narrative)
      && r.value.options == [CleanOption(Strip(first)), CleanOption(Strip(second)), CleanOption(Strip(third))]
  {
    ThreeOptionLines(narrative, first, second, third);
    ThreeOptionNarrative(narrative, first, second, third);
    ParseFirstThree([narrative, "", first, second, third]);
  }

  /**
   * The same reply as one text, as the model sends it: a narrative line, a
   * blank line and three option lines, joined by "\n", parses back to the
   * trimmed narrative and the three cleaned options.
   */
  lemma ThreeOptionReplyTextParses(narrative: string, first: string, second: string, third: string)
    requires IsLine(narrative) && IsLine(first) && IsLine(second) && IsLine(third)
    requires !IsOptionText(narrative) && IsOptionText(first) && IsOptionText(second) && IsOptionText(third)
    ensures var r := Parse(JoinLines([narrative, "", first, second, third]));
      && r.Success?
      && r.value.narrative == Strip(narrative)
      && r.value.options == [CleanOption(Strip(first)), CleanOption(Strip(second)), CleanOption(Strip(third))]
  {
    SplitJoinLines([narrative, "", first, second, third]);
    ThreeOptionReplyParses(narrative, first, second, third);
  }

  /** The narrative of that reply is its first line: the blank line after it only adds whitespace. */
  lemma ThreeOptionNarrative(narrative: string, first: string, second: string, third: string)
    requires !IsOptionText(narrative) && IsOptionText(first)
    ensures NarrativeOf([narrative, "", first, second, third]) == Strip(narrative)
  {
    var lines := [narrative, "", first, second, third];
    var rest := lines[1..];
    assert rest[0] == "" && rest[1..][0] == first;
    assert !IsOptionText("");
    assert FirstOption(rest[1..]) == 0;
    assert FirstOption(lines) == 2;
    var head := lines[..2];
    assert head == [narrative, ""] && head[1..] == [""];
    assert JoinLines(head) == narrative + "\n";
    StripTrailingBreak(narrative);
  }

  /** The option lines of a narrative line, a blank line and three option lines are the three, stripped. */
  lemma ThreeOptionLines(narrative: string, first: string, second: string, third: string)
    requires !IsOptionText(narrative) && IsOptionText(first) && IsOptionText(second) && IsOptionText(third)
    ensures OptionLines([narrative, "", first, second, third]) == [Strip(first), Strip(second), Strip(third)]
  {
    var l2 := [narrative, ""];
    NoOptionLines(l2);
    OptionLineAppended(l2, first);
    OptionLineAppended(l2 + [first], second);
    OptionLineAppended(l2 + [first, second], third);
    assert l2 + [first] + [second] == l2 + [first, second];
    assert l2 + [first, second] + [third] == [narrative, "", first, second, third];
  }

  /** An option line appended to the lines adds its stripped form at the end of the option lines. */
  lemma OptionLineAppended(lines: seq<string>, line: string)
    requires IsOptionText(line)
    ensures OptionLines(lines + [line]) == OptionLines(lines) + [Strip(line)]
  {
    var all := lines + [line];
    assert all[..|all| - 1] == lines;
  }


  /** A reply without any option line, like the test suite's "invalid input", fails with no option found. */
  lemma NoOptionLineFails(lines: seq<string>)
    requires forall i :: 0 <= i < |lines| ==> !IsOptionText(lines[i])
    ensures ParseLines(lines) == Failure(IndexError(0))
  {
    NoOptionLines(lines);
  }

  /** Without option lines the scan collects nothing. */
  lemma {:induction false} NoOptionLines(lines: seq<string>)
    requires forall i :: 0 <= i < |lines| ==> !IsOptionText(lines[i])
    ensures OptionLines(lines) == []
  {
    if lines != [] {
      NoOptionLines(lines[..|lines| - 1]);
    }
  }

  // ---------------------------------------------------------------------
  // The engine object
  // ---------------------------------------------------------------------

  /** `AdventureEngine`: the two prompt texts, fixed at construction. */
  class AdventureEngine {
    const startingPrompt: string
    const iterationPrompt: string

    /** `AdventureEngine()`: the prompt texts the game ships with. */
    constructor ()
      ensures startingPrompt == StartingPrompt && iterationPrompt == IterationPrompt
    {
      startingPrompt := StartingPrompt;
      iterationPrompt := IterationPrompt;
    }

    /**
     * `generate_prompt`: concatenation over the history, the chosen option and
     * the drawn number of templates (2 or 3), then a right strip. The count is
     * drawn only for a non-empty history; for an empty one it is ignored.
     */
    method GeneratePrompt(history: seq<HistoryEntry>, chosen: Option<string>, numOptions: nat) returns (prompt: string)
      requires numOptions <= 3 && (history != [] ==> 2 <= numOptions)
      ensures prompt == Prompt(startingPrompt, iterationPrompt, history, chosen, numOptions)
    {
      if history == [] {
        return startingPrompt;
      }
      prompt := AppendHistory(iterationPrompt, history);
      if chosen.Some? && chosen.value != "" {
        prompt := prompt + (ChoiceIntro + chosen.value + ". ");
      } else {
        assert prompt == prompt + ChoiceSentence(chosen);
      }
      ghost var head := prompt;
      prompt := prompt + RequestHead;
      var count := CountIntro + [DigitChar(numOptions)] + CountTail;
      prompt := prompt + count;
      assert prompt == head + RequestText(numOptions) by {
        assert RequestText(numOptions) == RequestHead + count;
      }
      prompt := AppendTemplates(prompt, numOptions);
      prompt := RStrip(prompt);
    }

    /**
     * `parse_response`: the scan with the `in_options` flag, the narrative
     * joined and trimmed, every option line cleaned, and the first three
     * options returned (an index error when there are fewer).
     */
    method ParseResponse(response: string) returns (r: Result<Beat, ParseError>)
      ensures r == Parse(response)
    {
      var lines := SplitLines(response);
      var narrativeLines, optionLines := ScanLines(lines);
      OptionLinesAreOptions(lines);
      var narrative := Strip(JoinLines(narrativeLines));
      var options := CleanOptions(optionLines);
      if |options| < 3 {
        r := Failure(IndexError(|options|));
      } else {
        r := Success(Beat(narrative, options[..3]));
      }
    }
  }
}
