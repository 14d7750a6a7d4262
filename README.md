# sko-demo in Dafny

This project models the game core of the sko-demo repository. It covers two Streamlit
adventure games.

**The language-model adventure** (`llm_adventure.py`) has these parts:

- **Player.** A `Player` with clamped hit points and magic points, experience that levels
  the player up, and an inventory.
- **Stat resolver.** `update_player_stats` sorts a chosen option into a category by the
  keywords it mentions. It then damages, trains or heals the player and asserts that the
  player's hit points are still positive.
- **Engine.** The `AdventureEngine` writes the prompt sent to the language model from the
  adventure history. It also splits the model's reply into a narrative and exactly three
  action options.
- **Session.** The session holds the history, the beat on display, the started flag, the
  player, the system environment and the last effect message. Its transitions are:
  - `start_adventure`;
  - a click on an option in `render_game`;
  - the one-time display of the last effect;
  - `restart_game`.

**The chapter adventure** (`adventure_app.py`) has a fixed table of sixteen chapters,
`get_chapter`, and a navigator. The navigator holds the current chapter, the path taken
and the coin flip of the coffee branch. It moves between chapters as `init_state`,
`reset_game` and `main` do.

Modules:

- `Wrappers`: `Option` and `Result`.
- `Text`: the Python string builtins the core relies on.
- `Players`, `GameMechanics`, `AdventureEngines`, `LlmAdventure` and `AdventureApp`:
  one module per source file.

**What is a class and what is pure.**

- Classes stand for the source's classes and for the state it keeps between clicks:
  - `Players.Player`, whose methods update its fields in place;
  - `AdventureEngines.AdventureEngine`, whose two prompt texts are set once by its
    constructor and never change;
  - `LlmAdventure.Session`, which stands for the Streamlit session state;
  - `AdventureApp.Navigator`, which stands for the navigation state of one visitor.
- Some methods are proved equal to a pure specification function, whose properties are
  proved as lemmas: the player's methods (except `RestoreMp` and `AddItem`), the
  resolver, the prompt builder and the reply parser.
- The other methods state the new state outright: `RestoreMp`, `AddItem`, and every
  `Session` and `Navigator` method that changes state. `Session.NextPrompt` changes
  nothing; it states the prompt it returns.
- Every method that changes state states the invariant it keeps. For the player's methods,
  and for `ApplyEffect` and `UpdatePlayerStats`, which change the player, that is the
  player's `InBounds()`. For the `Session` and `Navigator` methods that is `Valid()`,
  except for `Session.Show` and `Session.ShowReply`. Those two are steps inside the
  click-level methods and keep `ShowsBeat()`. `Show` also keeps `Valid()` once the game
  has started.
- The prompt builder and the reply parser keep their loops, as methods with invariants.

**How a click is modelled.** The click handler of `render_game` is split into three
methods:

1. `Session.Choose`: the history append, the stat update, the effect message and the
   environment refresh.
2. `Session.NextPrompt`: the prompt for the next beat.
3. `Session.ShowNextBeat`: parsing the model's reply and showing it.

The call to the language model sits between the last two. Its reply is an input.

**What is a parameter.** Every random draw is a parameter, and its range is a
precondition:

- the resolver's damage, cost, experience, relief coin and restore amount (`Roll`);
- the prompt's option count;
- the coffee coin.

The system environment is an opaque value of type `Env` that a refresh replaces.

**The parser and the tests disagree.** The parser indexes the first three options. A
reply with fewer option lines therefore raises an `IndexError`, modelled as
`Failure(IndexError(found))`. The test file `tests/test_llm_adventure.py` expects two
options back from a two-option reply, and fallback options for a reply with none. The
model follows the code. `TwoOptionReplyFails` and `NoOptionLineFails` state what the code
does on those inputs, and `ThreeOptionReplyParses` covers the case the code handles.

**The game-over check is dead.** The game-over test after a click can never fire. The
resolver's assertion has already failed whenever hit points are not positive:
`Resolve`'s contract proves it, and `Session.Choose` has an unreachable branch there.

## Model

| member | source | states |
|---|---|---|
| Text.IsSpace | llm_adventure.py:87 | the whitespace `strip` removes; no contract of its own, its use is stated by `RStripTail`, `LStripSuffix` and `StripInfix` |
| Text.IsLineBreak | llm_adventure.py:80 | the line boundaries of `splitlines`; no contract of its own, its use is stated by `SplitLines` and `SplitLinesCons` |
| Text.IsDigit | llm_adventure.py:88 | `isdigit` on one character; no contract of its own, its use is stated by `DigitChar`, `NatToStringRoundTrip` and `LookLineSplit` |
| Text.RStrip | llm_adventure.py:60 | `rstrip` yields a prefix of its input that does not end in whitespace |
| Text.RStripTail | llm_adventure.py:60 | everything `rstrip` removes is whitespace |
| Text.LStrip | llm_adventure.py:87 | `lstrip`, the left half of every `strip()` (lines 87, 94 and 100), yields a string that does not start with whitespace and keeps the last character |
| Text.LStripSuffix | llm_adventure.py:87 | what `lstrip` keeps is a suffix, and everything it removes is whitespace |
| Text.Strip | llm_adventure.py:87 | `strip` leaves no whitespace at either end, is no longer than its input and leaves an already stripped string alone |
| Text.StripTrailingBreak | llm_adventure.py:94 | a line break at the end of a text does not change what `strip` gives |
| Text.StripInfix | llm_adventure.py:87 | `strip` keeps a contiguous middle part of its input and removes only whitespace before and after it (also lines 94 and 100) |
| Text.StripLeadingSpace | llm_adventure.py:100 | one whitespace character in front of a text that has none at either end is all that `strip` removes |
| Text.SplitLines | llm_adventure.py:80 | `splitlines` yields lines free of line boundaries, and none exactly when the text is empty |
| Text.SplitLinesCons | llm_adventure.py:80 | a line followed by "\n" splits off the front on its own |
| Text.SplitLinesSingle | llm_adventure.py:80 | a text without line boundaries is one line |
| Text.SplitJoinLines | llm_adventure.py:80 | `splitlines` of `"\n".join(lines)` gives the lines back, when no line holds a boundary and the last one is not empty |
| Text.JoinLines | llm_adventure.py:94 | `"\n".join`; no contract of its own, and its use in the narrative is stated by `NarrativeOf`, `NarrativeDeterminedBy` and `NarrativeExtend` |
| Text.LowerChar | game_mechanics.py:8 | `lower` on one character; no contract of its own, its use is stated by `Lower`, `LowerRollbackOption` and `VerbLetter` |
| Text.Lower | game_mechanics.py:8 | `lower` keeps the length and lowers each character in place |
| Text.MissingCharNotContained | game_mechanics.py:9 | a keyword with a character the option lacks is not in the option |
| Text.Contains | game_mechanics.py:9 | the substring test `in`; no contract of its own, its properties are `MissingCharNotContained` and `RollbackOptionKeywords` |
| Text.NatToString | game_mechanics.py:12 | the decimal form of a number is never empty |
| Text.DigitChar | game_mechanics.py:12 | the character for a digit is a decimal digit whose value is that digit |
| Text.NatToStringRoundTrip | game_mechanics.py:12 | `str(n)` writes only digits, has no leading zero, and reading it back as a decimal number gives n |
| Text.IntToString | game_mechanics.py:12-43 | the f-string formatting of a drawn amount; no contract of its own; for the positive amounts that fitting draws hold it is `NatToString`, pinned by `NatToStringRoundTrip`, and a negative amount gets a leading '-' |
| Players.ClampedUpdates | player.py:10-18 | take_damage, restore_hp and use_mp each change only their own field, land either on the clamp bound or on the exact sum or difference, and keep 0..100 hp and 0..50 mp for non-negative amounts |
| Players.XpGainedLevelsOnce | player.py:24-29 | gain_xp changes only xp and level; the level rises by one, with xp back to 0, exactly when the sum reaches 100 times the level, and otherwise xp is the sum; afterwards xp is below the threshold and the bounds hold |
| Players.Damaged | player.py:10-11 | `take_damage` on a snapshot; no contract of its own, its properties are `ClampedUpdates` and `Player.TakeDamage` |
| Players.Healed | player.py:13-15 | `restore_hp` on a snapshot; no contract of its own, its properties are `ClampedUpdates` and `Player.RestoreHp` |
| Players.MpUsed | player.py:17-18 | `use_mp` on a snapshot; no contract of its own, its properties are `ClampedUpdates` and `Player.UseMp` |
| Players.XpGained | player.py:24-29 | `gain_xp` on a snapshot; no contract of its own, its properties are `XpGainedLevelsOnce` and `Player.GainXp` |
| Players.StartingInventory | player.py:8 | a missing or empty inventory becomes ["Rusty Sword", "Healing Potion"], and any other is kept |
| Players.Player.constructor | player.py:2-8 | the new player has the given stats and the starting inventory |
| Players.Player.TakeDamage | player.py:10-11 | hp becomes max(0, hp - amount), nothing else changes, and the bounds are kept |
| Players.Player.RestoreHp | player.py:13-15 | hp becomes min(100, hp + amount), nothing else changes, and the bounds are kept |
| Players.Player.UseMp | player.py:17-18 | mp becomes max(0, mp - amount), nothing else changes, and the bounds are kept |
| Players.Player.RestoreMp | player.py:20-22 | mp becomes min(50, mp + amount) and lands on 50 or the exact sum, and the bounds are kept |
| Players.Player.GainXp | player.py:24-29 | the level rises by one and xp resets exactly when the sum reaches 100 times the level; otherwise xp is the sum |
| Players.Player.AddItem | player.py:31-32 | the item is appended at the end and the old inventory is kept in front of it |
| GameMechanics.Rank | game_mechanics.py:9-35 | every keyword category has a keyword group, in the order the branches test them |
| GameMechanics.MentionsGroup | game_mechanics.py:9 | an option mentions a group iff one of the group's keywords is a substring of it |
| GameMechanics.Mentions | game_mechanics.py:9 | the `or` of `in` tests of one branch; no contract of its own, its properties are `MentionsGroup`, `ClassifyDefaultIffNoKeyword` and `ClassifyMentionsItsGroup` |
| GameMechanics.Classify | game_mechanics.py:8-36 | the keyword dispatch; no contract of its own, its properties are `ClassifyDefaultIffNoKeyword`, `ClassifyMentionsItsGroup` and `ClassifyFirstMatchWins` |
| GameMechanics.ClassifyDefaultIffNoKeyword | game_mechanics.py:8-36 | the default branch is taken iff the lower-cased option contains none of the keywords |
| GameMechanics.ClassifyMentionsItsGroup | game_mechanics.py:8-35 | a keyword category is chosen only when the option mentions one of its keywords |
| GameMechanics.ClassifyFirstMatchWins | game_mechanics.py:8-35 | the chosen category is the first one in branch order whose keywords the option mentions |
| GameMechanics.FirstIndex | game_mechanics.py:26 | `list.remove` finds the first occurrence of the item |
| GameMechanics.RemoveFirst | game_mechanics.py:26 | removing an item present takes out exactly its first occurrence: the items before it and after it keep their order, and one copy leaves the multiset; removing one absent changes nothing |
| GameMechanics.EffectOn | game_mechanics.py:8-43 | the stat change of each branch; no contract of its own, its properties are `EffectOfDamage`, `EffectOfTraining`, `EffectOfPotion`, `EffectOfDefault`, `EffectKeepsBounds` and `EffectFatalIff` |
| GameMechanics.EffectMessage | game_mechanics.py:12-43 | the message of each branch, with the drawn amounts in decimal; no contract of its own, it is what `ApplyEffect` returns and `HealingPotionScenario` pins two of its messages |
| GameMechanics.EffectOfDamage | game_mechanics.py:9-22 | crash and rollback change only hp, which becomes exactly max(0, hp - damage): the drawn damage is taken, or all that is left when it reaches the hp |
| GameMechanics.EffectOfTraining | game_mechanics.py:13-35 | debug and upgrade spend the cost in mp (clamped at 0) and then gain the xp, leaving name, hp and inventory alone |
| GameMechanics.EffectOfPotion | game_mechanics.py:23-29 | with a potion, hp rises by 20 (up to 100) and the first potion leaves the inventory, the other items keeping their order; without one, nothing changes |
| GameMechanics.EffectOfDefault | game_mechanics.py:36-43 | the default branch restores the drawn amount (up to 100) on heads and changes nothing on tails |
| GameMechanics.Resolve | game_mechanics.py:3-48 | the resolver returns its message iff the player's hp is still positive afterwards, and fails the assertion otherwise |
| GameMechanics.RollFits | game_mechanics.py:10-39 | the `randint` ranges of each branch; no contract of its own, it is what `EffectKeepsBounds`, `EffectFatalIff` and `RollbackOptionDamage` assume of a draw, and what `ApplyEffect` and `UpdatePlayerStats` require |
| GameMechanics.EffectKeepsBounds | game_mechanics.py:8-43 | for draws in the source's ranges, every branch keeps hp in 0..100 and mp in 0..50 |
| GameMechanics.EffectFatalIff | game_mechanics.py:8-46 | a living player's hp reaches 0 iff the option is a crash or a rollback and the damage is at least the hp left |
| GameMechanics.ResolveKeepsBounds | game_mechanics.py:3-48 | the resolver keeps the player within bounds |
| GameMechanics.AssertionFailsOnlyOnFatalDamage | game_mechanics.py:46 | the assertion fails iff the option is a crash or a rollback whose damage is at least the hp left |
| GameMechanics.FixTheCrashIsACrash | game_mechanics.py:9-13 | an option naming both a fix and a crash is a crash, because that branch is tested first |
| GameMechanics.LowerRollbackOption | game_mechanics.py:8 | lower-casing "Run a rollback now" gives "run a rollback now" |
| GameMechanics.RollbackOptionKeywords | game_mechanics.py:9-19 | "run a rollback now" contains "rollback" and none of the crash or debug keywords |
| GameMechanics.ClassifyRollbackOption | game_mechanics.py:8-19 | "Run a rollback now" takes the rollback branch |
| GameMechanics.RollbackOptionDamage | game_mechanics.py:19-22 | that option takes exactly max(0, hp - damage): between 5 and 10 hp for a player with more than 10 hp, and all of it for a player with 5 hp or fewer |
| GameMechanics.ClassifyHeal | game_mechanics.py:23 | "heal" takes the potion branch |
| GameMechanics.HealingPotionScenario | game_mechanics.py:23-29 | a player at 50 hp with one potion heals to 70 and loses the potion; a second try finds none and changes nothing |
| GameMechanics.WorstCaseCrashScenario | game_mechanics.py:9-12 | four worst-case crashes take a fresh player to 70, 40 and 10 hp, and the fourth fails the assertion at 0 |
| GameMechanics.ApplyEffect | game_mechanics.py:8-43 | the branch for a category changes the player through its methods exactly as the effect function says, and returns the source's message; a player within bounds stays within bounds |
| GameMechanics.UpdatePlayerStats | game_mechanics.py:3-48 | the player ends as the resolver says, the result is the message or the assertion failure, success holds iff hp > 0, and the bounds are kept |
| AdventureEngines.HistoryTextConcat | llm_adventure.py:48-50 | the history lines of two runs of entries are the lines of the first followed by those of the second |
| AdventureEngines.HistoryLineOrder | llm_adventure.py:48-50 | each entry contributes its line between the lines of the earlier and the later entries |
| AdventureEngines.EntryLine | llm_adventure.py:50 | the line of one entry; no contract of its own, its place in the prompt is `HistoryLineOrder` |
| AdventureEngines.HistoryText | llm_adventure.py:48-50 | the lines of all entries; no contract of its own, its properties are `HistoryTextConcat`, `HistoryLineOrder` and `AppendHistory` |
| AdventureEngines.Numeral | llm_adventure.py:56-59 | the option count and each option number are written as the single digit whose value is that number |
| AdventureEngines.Prompt | llm_adventure.py:44-60 | an empty history gives the starting prompt; any other prompt ends in a non-space |
| AdventureEngines.RStripNewline | llm_adventure.py:60 | the final right strip removes only the last template's line break |
| AdventureEngines.PromptLayout | llm_adventure.py:47-60 | a later prompt is the iteration text, one line per entry, the chosen-option sentence, the request naming the count, then templates 1 to n, the last without its line break |
| AdventureEngines.LastPlaceholder | llm_adventure.py:58-60 | the templates end in the last template plus a line break, and that template ends in a non-space |
| AdventureEngines.ChoiceSentenceIffChosen | llm_adventure.py:51-52 | a chosen option changes the prompt iff it is non-empty |
| AdventureEngines.ChoiceSentence | llm_adventure.py:51-52 | the sentence naming the chosen option; no contract of its own, its properties are `ChoiceSentenceIffChosen` and `PromptLayout` |
| AdventureEngines.RequestText | llm_adventure.py:55-56 | the request with the number of options wanted; no contract of its own, its properties are `Numeral` and `PromptLayout` |
| AdventureEngines.Placeholders | llm_adventure.py:58-59 | the numbered templates; no contract of its own, its properties are `AppendTemplates`, `LastPlaceholder` and `PromptLayout` |
| AdventureEngines.PlaceholderText | llm_adventure.py:59 | the template of one option, numbered by a single digit; no contract of its own, its properties are `LastPlaceholder`, `AppendTemplates` and `Numeral` |
| AdventureEngines.PromptBody | llm_adventure.py:47-59 | the prompt before its final `rstrip`; no contract of its own, its properties are `PromptLayout`, `RStripNewline` and `Prompt` |
| AdventureEngines.AppendHistory | llm_adventure.py:48-50 | the history loop appends exactly the history lines to the prompt |
| AdventureEngines.AppendTemplates | llm_adventure.py:58-59 | the template loop appends templates 1 to the count |
| AdventureEngines.FirstTwo | llm_adventure.py:88 | `s[:2]` is a prefix of length min(2, len s) |
| AdventureEngines.DotIndex | llm_adventure.py:100 | the first '.' lies inside the line |
| AdventureEngines.DotIndexIsFirst | llm_adventure.py:100 | the found position holds a '.' and no '.' comes before it |
| AdventureEngines.AfterFirstDotSpec | llm_adventure.py:100 | `split('.', 1)[1]` is the suffix after a '.' that has no '.' before it |
| AdventureEngines.AfterFirstDot | llm_adventure.py:100 | `split('.', 1)[1]`; no contract of its own, its property is `AfterFirstDotSpec` |
| AdventureEngines.StartsWithAnyAt | llm_adventure.py:102 | an option that starts with any listed verb passes the verb test |
| AdventureEngines.StartsWithAnyWitness | llm_adventure.py:102 | an option passes the verb test only when some listed verb starts it: the converse of `StartsWithAnyAt` |
| AdventureEngines.StartsWithAny | llm_adventure.py:102 | `any(… startswith …)` over the verb list; no contract of its own, its properties are `StartsWithAnyAt` and `StartsWithAnyWitness` |
| AdventureEngines.StartsWithVerb | llm_adventure.py:102 | the verb test on the lower-cased option; no contract of its own, its properties are `VerbLetter`, `DebugPrefixIsVerb`, `LookIsNoVerb` and `CheckIsVerb` |
| AdventureEngines.VerbLetter | llm_adventure.py:102 | a verb-led option begins, once lower-cased, with the first letter of some verb |
| AdventureEngines.ForceVerb | llm_adventure.py:102-103 | the verb check; no contract of its own, its properties are `ForceVerbSpec` and `DebugPrefixed` |
| AdventureEngines.ForceVerbSpec | llm_adventure.py:102-103 | the check puts exactly "Debug " in front of a non-empty text no verb starts, and leaves verb-led and empty texts alone; the result is well formed |
| AdventureEngines.DebugPrefixed | llm_adventure.py:102-103 | a non-empty trimmed text with "Debug " in front is a well-formed option ending with that text |
| AdventureEngines.DebugPrefixIsVerb | llm_adventure.py:103 | "Debug " in front of any text makes it start with the verb "debug" |
| AdventureEngines.LookIsNoVerb | tests/test_llm_adventure.py:40-49 | "Look at the logs" is not led by a verb |
| AdventureEngines.CheckIsVerb | tests/test_llm_adventure.py:5-16 | "Check application logs" is led by the verb "check" |
| AdventureEngines.LookAtTheLogsGetsDebug | tests/test_llm_adventure.py:40-49 | "Look at the logs" becomes "Debug Look at the logs", and "Check application logs" is kept as it is |
| AdventureEngines.LookAtTheLogsLine | tests/test_llm_adventure.py:40-49 | the line "1. Look at the logs" is an option line, and the parser cleans it to "Debug Look at the logs" |
| AdventureEngines.LookLineSplit | llm_adventure.py:88-100 | "1. Look at the logs" passes the option-line test, and its first '.' is at index 1, so what `split('.', 1)[1]` keeps is " Look at the logs" |
| AdventureEngines.IsOptionLine | llm_adventure.py:88 | the option-line test; no contract of its own, its use is stated by `OptionLinesStep`, `OptionLinesAreOptions` and `ScanLines` |
| AdventureEngines.IsOptionText | llm_adventure.py:87-88 | the option-line test on the stripped line; no contract of its own, its use is stated by `FirstOption`, `BeforeFirstOption` and `OptionLinesStep` |
| AdventureEngines.CleanOption | llm_adventure.py:98-104 | the cleaning of one option line; no contract of its own, its properties are `CleanOptionSpec` and `CleanOne` |
| AdventureEngines.CleanOptionSpec | llm_adventure.py:97-104 | a cleaned option is well formed and is the trimmed text after the first '.', with "Debug " in front exactly when that text is non-empty and not led by a verb |
| AdventureEngines.FirstOption | llm_adventure.py:85-94 | the option part starts at an option line, or there is none |
| AdventureEngines.BeforeFirstOption | llm_adventure.py:85-94 | no line before the first option line is an option line |
| AdventureEngines.OptionLines | llm_adventure.py:85-90 | the scan collects at most one option line per line |
| AdventureEngines.OptionLinesAreOptions | llm_adventure.py:88-90 | every collected line is an option line and has no whitespace at either end |
| AdventureEngines.OptionLinesStep | llm_adventure.py:86-90 | one more line adds its stripped form to the option lines exactly when it is an option line |
| AdventureEngines.NarrativeOf | llm_adventure.py:91-94 | the narrative is trimmed at both ends |
| AdventureEngines.CleanAll | llm_adventure.py:97-104 | every option line yields one cleaned option |
| AdventureEngines.CleanAllAt | llm_adventure.py:97-104 | the cleaned option at each position is the cleaning of the option line at that position |
| AdventureEngines.ParseLines | llm_adventure.py:77-106 | a parse succeeds iff there are at least three option lines, and then yields three options; otherwise it reports how many were found. Which three it yields is `ParseFirstThree` |
| AdventureEngines.ParsedBeatWellFormed | llm_adventure.py:97-106 | a successful parse yields three well-formed options and a trimmed narrative |
| AdventureEngines.ParseFirstThree | llm_adventure.py:77-106 | a successful parse returns the narrative of the lines and the first three option lines cleaned, in order; later option lines are dropped |
| AdventureEngines.FirstThreeCleaned | llm_adventure.py:97-106 | the first three cleaned options are the first three option lines, cleaned |
| AdventureEngines.Parse | llm_adventure.py:77-106 | `parse_response` on the whole reply; no contract of its own, its properties are `ParseLines`, `ParseFirstThree`, `ParsedBeatWellFormed` and `AdventureEngine.ParseResponse` |
| AdventureEngines.ScanLines | llm_adventure.py:82-90 | the scan loop collects the lines before the first option line as the narrative and every option line, stripped, as options |
| AdventureEngines.ScanStep | llm_adventure.py:86-90 | one more scanned line adds an option line exactly when it is one; lines before the first option are never option lines |
| AdventureEngines.CleanOptions | llm_adventure.py:97-104 | the cleaning loop cleans every option line, in order |
| AdventureEngines.CleanOne | llm_adventure.py:98-104 | the loop body cleans one option line as specified |
| AdventureEngines.FirstOptionExtend | llm_adventure.py:85-90 | lines after an option line do not move the first option line |
| AdventureEngines.ParseLinesDeterminedBy | llm_adventure.py:77-106 | a parse depends only on the option lines and the narrative |
| AdventureEngines.NarrativeDeterminedBy | llm_adventure.py:91 | the narrative depends only on the lines before the first option line |
| AdventureEngines.NarrativeExtend | llm_adventure.py:89-91 | lines after an option line leave the narrative as it was |
| AdventureEngines.OptionLinesSkip | llm_adventure.py:88-90 | a line that is not an option line adds no option line |
| AdventureEngines.TrailingLineIgnored | llm_adventure.py:85-106 | a trailing non-option line after the options does not change the parse |
| AdventureEngines.TwoOptionReplyFails | tests/test_llm_adventure.py:5-16 | a narrative, a blank line and two option lines fail with two options found, where the test expects two options |
| AdventureEngines.ThreeOptionReplyParses | tests/test_llm_adventure.py:18-29 | a narrative, a blank line and three option lines parse back: the narrative is the first line, trimmed, and the options are the three lines, cleaned, in order |
| AdventureEngines.ThreeOptionNarrative | tests/test_llm_adventure.py:18-29 | the narrative of that reply is its first line, trimmed: the blank line after it adds only whitespace |
| AdventureEngines.ThreeOptionReplyTextParses | tests/test_llm_adventure.py:18-29 | the same reply as one text, its lines joined by "\n", parses to the trimmed narrative and the three cleaned options |
| AdventureEngines.ThreeOptionLines | llm_adventure.py:85-90 | the option lines of such a reply are the three lines, stripped |
| AdventureEngines.OptionLineAppended | llm_adventure.py:88-90 | an option line at the end adds its stripped form at the end of the option lines |
| AdventureEngines.NoOptionLineFails | tests/test_llm_adventure.py:31-38 | a reply without option lines fails with none found, where the test expects fallback options |
| AdventureEngines.NoOptionLines | llm_adventure.py:85-90 | without option lines the scan collects nothing |
| AdventureEngines.AdventureEngine.constructor | llm_adventure.py:20-42 | the engine holds the shipped starting and iteration prompts |
| AdventureEngines.AdventureEngine.GeneratePrompt | llm_adventure.py:44-60 | the prompt the loops build is the prompt function's, for the drawn count of 2 or 3 |
| AdventureEngines.AdventureEngine.ParseResponse | llm_adventure.py:77-106 | the scan and the cleaning loop give the parse function's result, an index error included |
| LlmAdventure.Session.Show | llm_adventure.py:197-198 | a parsed beat goes on display, and a started session stays valid |
| LlmAdventure.Session.ShowReply | llm_adventure.py:196-198 | a reply that parses goes on display; one that raises leaves the display as it was |
| LlmAdventure.Session.constructor | llm_adventure.py:109-125 | a new session has an empty history and display, has not started, has a default player and no last effect |
| LlmAdventure.Session.StartAdventure | llm_adventure.py:204-210 | the starting prompt is sent; a reply that parses is shown and starts the game, and one that raises changes nothing |
| LlmAdventure.Session.Choose | llm_adventure.py:176-191 | the option and its narrative are appended to the history and the player is resolved; on success the message is kept and the environment refreshed, and on failure both stay; the game-over stop never happens |
| LlmAdventure.Session.NextPrompt | llm_adventure.py:194 | the next prompt is built from the whole history with the option just taken |
| LlmAdventure.Session.ShowNextBeat | llm_adventure.py:195-198 | the reply to that prompt is parsed, and a beat that parses goes on display |
| LlmAdventure.Session.TakeLastEffect | llm_adventure.py:165-167 | the last effect is handed out once and then removed, and a valid session stays valid |
| LlmAdventure.Session.Restart | llm_adventure.py:128-134 | from any state: history, display and started flag are reset and a fresh default player replaces the old one; the engine, environment and last effect are kept |
| AdventureApp.GetChapter | adventure_app.py:19-20 | a lookup finds exactly the chapters in the table, and gives nothing for any other id |
| AdventureApp.IsTerminal | adventure_app.py:220 | the end test `chapter.endpoint or len(chapter.choices) == 0`; no contract of its own, it guards `Navigator.Move`, and `EndpointIffNoChoices` shows its two halves agree on the shipped table |
| AdventureApp.CoffeeAcceptHasNoEntry | adventure_app.py:23-152 | the coin-flip chapter has no entry of its own in the table |
| AdventureApp.IdsMatchKeys | adventure_app.py:23-152 | each chapter is stored under its own id |
| AdventureApp.TableClosed | adventure_app.py:23-152 | every choice leads to a chapter in the table or to the coin flip |
| AdventureApp.EndpointIffNoChoices | adventure_app.py:23-152 | a chapter is an endpoint iff it offers no choices |
| AdventureApp.OnlyForestLeadsToCoffee | adventure_app.py:23-152 | only the coffee-forest chapter leads to the coin flip |
| AdventureApp.Navigator.constructor | adventure_app.py:159-166 | a new visitor starts at "start" with that as the whole path and no coin flip |
| AdventureApp.Navigator.Reset | adventure_app.py:169-175 | a reset goes back to "start" and forgets the coin flip |
| AdventureApp.Navigator.ResolveCoffee | adventure_app.py:194-208 | at an unresolved coin flip, below one half leads to the espresso explosion and anything else to the caffeine craze, the outcome is kept and the path extended; anywhere else nothing changes |
| AdventureApp.Navigator.Move | adventure_app.py:229-238 | a click moves to the choice's destination and appends it to the path; leaving the coffee branch forgets the coin flip |

## Left out

- The call to the language model (`call_openai`, the OpenAI client, the model name and the temperature) is not modelled. Its reply is an input string, and the error string it returns on an exception is just another reply.
- The Sentry SDK setup is left out. It has no effect on the game logic.
- The Streamlit page is left out: titles, the sidebar, buttons, `st.info`, `st.error`, `st.spinner`, `time.sleep`, `st.stop` and `st.rerun`. A button click is the call of the corresponding method.
- `environment.py` is not part of this model. The environment is an opaque value, and each refresh is given as a parameter.
- `random.randint`, `random.choice` and `random.random` are not modelled. Each draw is a parameter whose range is a precondition. The coffee coin flip is modelled as whether the outcome fell below 0.5, not as the float itself.
- `str.lower` is narrowed to ASCII letters and `str.isdigit` to '0'..'9'. Python applies both to all of Unicode.
- The game-over stop after a click (llm_adventure.py:189-191) is dead only while Python assertions are enabled. Under `python -O` the assertion at game_mechanics.py:46 is removed. Then a fatal crash or rollback returns its message, and the game-over stop is reached. The model keeps the assertion, so it does not model that mode.
- Python exceptions are modelled as `Failure` values: the `IndexError` of `parse_response` and the `AssertionError` of `update_player_stats`. The model does not capture how Streamlit reports them.
- `main` of llm_adventure.py is left out. It only dispatches between starting and rendering. Its no-engine branch cannot be reached, because every session is constructed with an engine.
- `initialize_state`'s "not yet in the session" guards are left out. The model constructs a new session once, which is the first run of those guards.
- `main` of adventure_app.py has a "Chapter not found" branch. It is covered by `GetChapter` returning `None` (`CoffeeAcceptHasNoEntry`). The navigator never shows that page: it resolves the coin flip first.
- The chapter table `AdventureApp.Chapters` (adventure_app.py:23-152) is a constant, so it has no row of its own. Its properties are the rows `CoffeeAcceptHasNoEntry`, `IdsMatchKeys`, `TableClosed`, `EndpointIffNoChoices` and `OnlyForestLeadsToCoffee`.
- The chapter prose, the titles and the choice captions are part of the table, but no property is stated about their wording.
- LlmAdventure.Session.NextPrompt: only the prompt is modelled. The order of the three steps of a click (Choose, then NextPrompt, then ShowNextBeat) is not enforced, but it is how the click runs.
- Players.Player: the model does not capture aliasing between a caller's inventory list and the player's. An inventory passed in is a value here, while in Python a non-empty list passed to `Player` is shared with the caller.
- AdventureEngines.AdventureEngine.GeneratePrompt takes the option count as a parameter of 2 or 3 (the draw of `random.randint(2, 3)`). For an empty history no count is drawn, and any count up to 3 is accepted and ignored.
