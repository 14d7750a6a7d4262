/**
 * The effect resolver: the chosen option is lower-cased and tested against six
 * keyword groups in a fixed priority order; the first group that matches picks
 * the stat change applied to the player, and the change must leave hp positive.
 *
 * Each random draw of the source is a field of `Roll`, and `RollFits` states
 * the range it is drawn from.
 */
module GameMechanics {
  import opened Wrappers
  import opened Text
  import opened Players

  /** The six effect categories, in the order they are tested. */
  datatype Category = Crash | Debug | Rollback | Potion | Upgrade | Default

  /** The keyword groups of the first five categories, in priority order. */
  const Groups: seq<seq<string>> := [
    ["panic", "crash", "failure"],
    ["debug", "fix", "patch"],
    ["rollback", "revert"],
    ["potion", "heal"],
    ["upgrade"]
  ]

  /** Position of a keyword category in `Groups`. */
  function Rank(c: Category): (k: nat)
    requires c != Default
    ensures k < |Groups|
  {
    match c
    case Crash => 0
    case Debug => 1
    case Rollback => 2
    case Potion => 3
    case Upgrade => 4
  }

  /** The lower-cased option contains one of the words. */
  predicate Mentions(option: string, words: seq<string>) {
    exists i :: 0 <= i < |words| && Contains(Lower(option), words[i])
  }

  /** Mentioning a group of at most three words is mentioning one of them. */
  lemma MentionsGroup(option: string, words: seq<string>)
    requires 1 <= |words| <= 3
    ensures Mentions(option, words) <==>
      Contains(Lower(option), words[0])
      || (|words| > 1 && Contains(Lower(option), words[1]))
      || (|words| > 2 && Contains(Lower(option), words[2]))
  {
  }

  /**
   * The category an option falls into: the keyword groups are tested in order
   * and the first one the lower-cased option contains wins.
   */
  function Classify(chosenOption: string): Category
  {
    var option := Lower(chosenOption);
    if Contains(option, "panic") || Contains(option, "crash") || Contains(option, "failure") then Crash
    else if Contains(option, "debug") || Contains(option, "fix") || Contains(option, "patch") then Debug
    else if Contains(option, "rollback") || Contains(option, "revert") then Rollback
    else if Contains(option, "potion") || Contains(option, "heal") then Potion
    else if Contains(option, "upgrade") then Upgrade
    else Default
  }

  /** An option is `Default` exactly when it mentions no keyword group. */
  lemma ClassifyDefaultIffNoKeyword(chosenOption: string)
    ensures Classify(chosenOption) == Default
        <==> forall g :: 0 <= g < |Groups| ==> !Mentions(chosenOption, Groups[g])
  {
    MentionsGroup(chosenOption, Groups[0]);
    MentionsGroup(chosenOption, Groups[1]);
    MentionsGroup(chosenOption, Groups[2]);
    MentionsGroup(chosenOption, Groups[3]);
    MentionsGroup(chosenOption, Groups[4]);
  }

  /** A keyword category is only chosen for an option that mentions its group. */
  lemma ClassifyMentionsItsGroup(chosenOption: string)
    ensures Classify(chosenOption) != Default ==> Mentions(chosenOption, Groups[Rank(Classify(chosenOption))])
  {
    MentionsGroup(chosenOption, Groups[0]);
    MentionsGroup(chosenOption, Groups[1]);
    MentionsGroup(chosenOption, Groups[2]);
    MentionsGroup(chosenOption, Groups[3]);
    MentionsGroup(chosenOption, Groups[4]);
  }

  /** First match wins: no group tested before the chosen one is mentioned. */
  lemma ClassifyFirstMatchWins(chosenOption: string)
    ensures Classify(chosenOption) != Default ==>
      forall g :: 0 <= g < Rank(Classify(chosenOption)) ==> !Mentions(chosenOption, Groups[g])
  {
    var c := Classify(chosenOption);
    if c != Default {
      forall g | 0 <= g < Rank(c) ensures !Mentions(chosenOption, Groups[g]) {
        MentionsGroup(chosenOption, Groups[g]);
        assert g == 0 || g == 1 || g == 2 || g == 3;
      }
    }
  }

  /**
   * The random draws of one resolution: a damage amount, an mp cost, an xp
   * gain, the default branch's coin and its hp restore. Each branch reads
   * only the draws it makes.
   */
  datatype Roll = Roll(damage: int, cost: int, xpGain: int, relief: bool, restore: int)

  /** The draws lie in the ranges the branch of `c` draws them from. */
  predicate RollFits(c: Category, roll: Roll) {
    match c
    case Crash => 15 <= roll.damage <= 30
    case Debug => 5 <= roll.cost <= 10 && 10 <= roll.xpGain <= 20
    case Rollback => 5 <= roll.damage <= 10
    case Potion => true
    case Upgrade => 3 <= roll.cost <= 8 && 15 <= roll.xpGain <= 25
    case Default => roll.relief ==> 1 <= roll.restore <= 10
  }

  /** Index of the first occurrence of `x`. */
  function FirstIndex(items: seq<string>, x: string): (i: nat)
    requires x in items
    ensures i < |items| && items[i] == x && x !in items[..i]
  {
    if items[0] == x then 0
    else
      var j := FirstIndex(items[1..], x);
      assert items[..j + 1] == [items[0]] + items[1..][..j];
      j + 1
  }

  /** `items.remove(x)`: the first occurrence of `x` is taken out; the rest keep their order. */
  function RemoveFirst(items: seq<string>, x: string): (r: seq<string>)
    ensures x !in items ==> r == items
    ensures x in items ==> |r| == |items| - 1 && multiset(r) == multiset(items) - multiset{x}
    ensures x in items ==> var i := FirstIndex(items, x); r[..i] == items[..i] && r[i..] == items[i + 1..]
  {
    if x in items then
      var i := FirstIndex(items, x);
      assert items == items[..i] + [x] + items[i + 1..];
      items[..i] + items[i + 1..]
    else items
  }

  /** The assertion at the end of the resolver: hp must still be positive. */
  datatype AssertionError = HpNotPositive

  /** The player after the effect, and the message or the failed assertion. */
  datatype Resolution = Resolution(after: Stats, result: Result<string, AssertionError>)

  /** The stat change of one category. */
  function EffectOn(s: Stats, c: Category, roll: Roll): Stats
  {
    match c
    case Crash => Damaged(s, roll.damage)
    case Debug => XpGained(MpUsed(s, roll.cost), roll.xpGain)
    case Rollback => Damaged(s, roll.damage)
    case Potion =>
      if HealingPotion in s.inventory then Healed(s, 20).(inventory := RemoveFirst(s.inventory, HealingPotion))
      else s
    case Upgrade => XpGained(MpUsed(s, roll.cost), roll.xpGain)
    case Default => if roll.relief then Healed(s, roll.restore) else s
  }

  /** The message of one category, with the drawn amounts written in decimal. */
  function EffectMessage(s: Stats, c: Category, roll: Roll): string
  {
    match c
    case Crash => "System overload! You take " + IntToString(roll.damage) + " damage."
    case Debug =>
      "Successful debug! MP reduced by " + IntToString(roll.cost) + " and you gain " + IntToString(roll.xpGain) + " XP."
    case Rollback => "Rolling back caused some issues. You take " + IntToString(roll.damage) + " damage."
    case Potion =>
      if HealingPotion in s.inventory then "You quickly use a Healing Potion and restore 20 HP."
      else "You searched your inventory, but found no Healing Potion."
    case Upgrade =>
      "You carry out a system upgrade! You gain " + IntToString(roll.xpGain) + " XP but lose " + IntToString(roll.cost) + " MP."
    case Default =>
      if roll.relief then "You find minor relief, restoring " + IntToString(roll.restore) + " HP."
      else "Your decision had no noticeable effect on your stats."
  }

  /** Crash and rollback only take hp: `roll.damage` of it, or all that is left. */
  lemma EffectOfDamage(s: Stats, c: Category, roll: Roll)
    requires c == Crash || c == Rollback
    ensures var after := EffectOn(s, c, roll);
      && after == s.(hp := after.hp)
      && after.hp == (if roll.damage >= s.hp then 0 else s.hp - roll.damage)
  {
  }

  /**
   * Debug and upgrade spend `roll.cost` mp (clamped at 0) and then gain
   * `roll.xpGain` xp, leaving name, hp and inventory alone.
   */
  lemma EffectOfTraining(s: Stats, c: Category, roll: Roll)
    requires c == Debug || c == Upgrade
    ensures var after := EffectOn(s, c, roll);
      && after.name == s.name && after.hp == s.hp && after.inventory == s.inventory
      && after.mp == (if s.mp - roll.cost < 0 then 0 else s.mp - roll.cost)
      && after == XpGained(s.(mp := after.mp), roll.xpGain)
  {
  }

  /**
   * The potion heals 20 (up to 100) and uses up the first "Healing Potion",
   * keeping the order of the other items, when there is one, and changes
   * nothing when there is none.
   */
  lemma EffectOfPotion(s: Stats, roll: Roll)
    ensures var after := EffectOn(s, Potion, roll);
      && (HealingPotion in s.inventory ==>
            && after == s.(hp := after.hp, inventory := after.inventory)
            && after.hp == (if s.hp + 20 > MaxHp then MaxHp else s.hp + 20)
            && after.inventory == RemoveFirst(s.inventory, HealingPotion)
            && multiset(after.inventory) == multiset(s.inventory) - multiset{HealingPotion})
      && (HealingPotion !in s.inventory ==> after == s)
  {
  }

  /** The default branch heals `roll.restore` (up to 100) when the coin says so and changes nothing otherwise. */
  lemma EffectOfDefault(s: Stats, roll: Roll)
    ensures EffectOn(s, Default, roll)
         == if roll.relief then s.(hp := if s.hp + roll.restore > MaxHp then MaxHp else s.hp + roll.restore) else s
  {
  }

  /**
   * `update_player_stats` on a snapshot of the player: the effect of the
   * option's category, then the check that hp is still positive.
   */
  function Resolve(s: Stats, chosenOption: string, roll: Roll): (r: Resolution)
    ensures r.result.Success? <==> r.after.hp > 0
  {
    var c := Classify(chosenOption);
    var after := EffectOn(s, c, roll);
    Resolution(after, if after.hp > 0 then Success(EffectMessage(s, c, roll)) else Failure(HpNotPositive))
  }

  /** Every category's effect keeps a player within bounds when its draws fit. */
  lemma EffectKeepsBounds(s: Stats, c: Category, roll: Roll)
    requires WithinBounds(s) && RollFits(c, roll)
    ensures WithinBounds(EffectOn(s, c, roll))
  {
    match c
    case Crash => ClampedUpdates(s, roll.damage);
    case Rollback => ClampedUpdates(s, roll.damage);
    case Debug =>
      ClampedUpdates(s, roll.cost);
      XpGainedLevelsOnce(MpUsed(s, roll.cost), roll.xpGain);
    case Upgrade =>
      ClampedUpdates(s, roll.cost);
      XpGainedLevelsOnce(MpUsed(s, roll.cost), roll.xpGain);
    case Potion => ClampedUpdates(s, 20);
    case Default => ClampedUpdates(s, roll.restore);
  }

  /**
   * From a living player hp drops to 0 or below exactly when the category is
   * a crash or a rollback whose damage is at least the remaining hp.
   */
  lemma EffectFatalIff(s: Stats, c: Category, roll: Roll)
    requires 0 < s.hp && RollFits(c, roll)
    ensures EffectOn(s, c, roll).hp <= 0 <==> c in {Crash, Rollback} && roll.damage >= s.hp
  {
    match c
    case Crash => EffectOfDamage(s, c, roll);
    case Rollback => EffectOfDamage(s, c, roll);
    case Debug => EffectOfTraining(s, c, roll);
    case Upgrade => EffectOfTraining(s, c, roll);
    case Potion => EffectOfPotion(s, roll);
    case Default => EffectOfDefault(s, roll);
  }

  /** The resolver keeps hp in 0..100, mp in 0..50, level at least 1 and xp non-negative. */
  lemma ResolveKeepsBounds(s: Stats, chosenOption: string, roll: Roll)
    requires WithinBounds(s) && RollFits(Classify(chosenOption), roll)
    ensures WithinBounds(Resolve(s, chosenOption, roll).after)
  {
    EffectKeepsBounds(s, Classify(chosenOption), roll);
  }

  /**
   * From a living player the assertion fails exactly when the option is a
   * crash or a rollback whose damage is at least the remaining hp: the other
   * four categories never lower hp.
   */
  lemma AssertionFailsOnlyOnFatalDamage(s: Stats, chosenOption: string, roll: Roll)
    requires 0 < s.hp <= MaxHp && RollFits(Classify(chosenOption), roll)
    ensures Resolve(s, chosenOption, roll).result.Failure?
        <==> Classify(chosenOption) in {Crash, Rollback} && roll.damage >= s.hp
  {
    EffectFatalIff(s, Classify(chosenOption), roll);
  }

  /** Priority order: an option that names both a fix and a crash is a crash. */
  lemma FixTheCrashIsACrash()
    ensures Classify("fix the crash") == Crash
  {
    assert "crash" <= Lower("fix the crash")[8..];
  }

  lemma LowerRollbackOption()
    ensures Lower("Run a rollback now") == "run a rollback now"
  {
  }

  /** "Run a rollback now" names no crash, fix or patch word, but names a rollback. */
  lemma ClassifyRollbackOption()
    ensures Classify("Run a rollback now") == Rollback
  {
    LowerRollbackOption();
    RollbackOptionKeywords();
  }

  /** The keywords found in the lower-cased option: only "rollback". */
  lemma RollbackOptionKeywords()
    ensures var option := "run a rollback now";
      && !Contains(option, "panic") && !Contains(option, "crash") && !Contains(option, "failure")
      && !Contains(option, "debug") && !Contains(option, "fix") && !Contains(option, "patch")
      && Contains(option, "rollback")
  {
    var option := "run a rollback now";
    MissingCharNotContained(option, "panic", 0);
    MissingCharNotContained(option, "crash", 4);
    MissingCharNotContained(option, "failure", 0);
    MissingCharNotContained(option, "debug", 4);
    MissingCharNotContained(option, "fix", 0);
    MissingCharNotContained(option, "patch", 0);
    assert "rollback" <= option[6..];
  }

  /**
   * "Run a rollback now" always costs between 5 and 10 hp: exactly the drawn
   * damage, or all that is left when the damage reaches the hp.
   */
  lemma RollbackOptionDamage(s: Stats, roll: Roll)
    requires 0 <= s.hp && RollFits(Rollback, roll)
    ensures var after := Resolve(s, "Run a rollback now", roll).after;
      && after.hp == (if roll.damage >= s.hp then 0 else s.hp - roll.damage)
      && (s.hp > 10 ==> s.hp - 10 <= after.hp <= s.hp - 5)
      && (s.hp <= 5 ==> after.hp == 0)
  {
    ClassifyRollbackOption();
    EffectOfDamage(s, Rollback, roll);
  }

  /** "heal" is a potion option: it names no crash, fix or patch word. */
  lemma ClassifyHeal()
    ensures Classify("heal") == Potion
  {
    var option := Lower("heal");
    assert option == "heal";
    MissingCharNotContained(option, "fix", 0);
    assert "heal" <= option[0..];
  }

  /** The potion scenario: one potion heals 50 to 70 and is used up; a second try finds none. */
  lemma HealingPotionScenario()
    ensures var s := Stats(DefaultName, 1, 50, MaxMp, 0, [HealingPotion]);
      var first := Resolve(s, "heal", Roll(0, 0, 0, false, 0));
      var second := Resolve(first.after, "heal", Roll(0, 0, 0, false, 0));
      && first.after.hp == 70 && first.after.inventory == []
      && first.result == Success("You quickly use a Healing Potion and restore 20 HP.")
      && second.after == first.after
      && second.result == Success("You searched your inventory, but found no Healing Potion.")
  {
    ClassifyHeal();
  }

  /**
   * Worst-case crashes from a fresh player: 100, 70, 40, 10, and the fourth
   * crash clamps hp to 0, where the assertion fails.
   */
  lemma WorstCaseCrashScenario()
    ensures var worst := Roll(30, 0, 0, false, 0);
      var r1 := Resolve(DefaultStats, "crash", worst);
      var r2 := Resolve(r1.after, "crash", worst);
      var r3 := Resolve(r2.after, "crash", worst);
      var r4 := Resolve(r3.after, "crash", worst);
      && r1.after.hp == 70 && r1.result.Success?
      && r2.after.hp == 40 && r2.result.Success?
      && r3.after.hp == 10 && r3.result.Success?
      && r4.after.hp == 0 && r4.result == Failure(HpNotPositive)
  {
    var option := Lower("crash");
    assert option == "crash";
    assert "crash" <= option[0..];
    assert Classify("crash") == Crash;
  }

  /**
   * The branch of `update_player_stats` for one category: the player changes
   * through its own methods (and `inventory.remove` for the potion) exactly as
   * `EffectOn` says, and the message is the one `EffectMessage` gives.
   */
  method ApplyEffect(player: Player, c: Category, roll: Roll) returns (effect: string)
    requires RollFits(c, roll)
    modifies player`hp, player`mp, player`xp, player`level, player`inventory
    ensures player.Snapshot() == EffectOn(old(player.Snapshot()), c, roll)
    ensures effect == EffectMessage(old(player.Snapshot()), c, roll)
    ensures old(player.InBounds()) ==> player.InBounds()
  {
    match c {
    case Crash =>
      var damage := roll.damage;
      player.TakeDamage(damage);
      effect := "System overload! You take " + IntToString(damage) + " damage.";
    case Debug =>
      var cost := roll.cost;
      player.UseMp(cost);
      var xpGain := roll.xpGain;
      player.GainXp(xpGain);
      effect := "Successful debug! MP reduced by " + IntToString(cost) + " and you gain " + IntToString(xpGain) + " XP.";
    case Rollback =>
      var damage := roll.damage;
      player.TakeDamage(damage);
      effect := "Rolling back caused some issues. You take " + IntToString(damage) + " damage.";
    case Potion =>
      if HealingPotion in player.inventory {
        player.RestoreHp(20);
        player.inventory := RemoveFirst(player.inventory, HealingPotion);
        effect := "You quickly use a Healing Potion and restore 20 HP.";
      } else {
        effect := "You searched your inventory, but found no Healing Potion.";
      }
    case Upgrade =>
      var xpGain := roll.xpGain;
      var cost := roll.cost;
      player.UseMp(cost);
      player.GainXp(xpGain);
      effect := "You carry out a system upgrade! You gain " + IntToString(xpGain) + " XP but lose " + IntToString(cost) + " MP.";
    case Default =>
      if roll.relief {
        var restore := roll.restore;
        player.RestoreHp(restore);
        effect := "You find minor relief, restoring " + IntToString(restore) + " HP.";
      } else {
        effect := "Your decision had no noticeable effect on your stats.";
      }
    }
  }

  method UpdatePlayerStats(player: Player, chosenOption: string, roll: Roll) returns (result: Result<string, AssertionError>)
    requires RollFits(Classify(chosenOption), roll)
    modifies player`hp, player`mp, player`xp, player`level, player`inventory
    ensures player.Snapshot() == Resolve(old(player.Snapshot()), chosenOption, roll).after
    ensures result == Resolve(old(player.Snapshot()), chosenOption, roll).result
    ensures result.Success? <==> player.hp > 0
    ensures old(player.InBounds()) ==> player.InBounds()
  {
    if player.InBounds() {
      ResolveKeepsBounds(player.Snapshot(), chosenOption, roll);
    }
    var effect := ApplyEffect(player, Classify(chosenOption), roll);
    if player.hp > 0 {
      result := Success(effect);
    } else {
      result := Failure(HpNotPositive);
    }
  }
}
