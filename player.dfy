/**
 * The player's stat record: hit points clamped to 0..100, magic points clamped
 * to 0..50, experience with a single-step level-up rule, and an inventory list.
 *
 * `Stats` is the record as a value, with one function per update; the class
 * `Player` is the mutable object the game holds, whose methods change exactly
 * the fields their update concerns.
 */
module Players {
  import opened Wrappers

  const MaxHp: int := 100
  const MaxMp: int := 50
  const DefaultName: string := "Engineer"
  const HealingPotion: string := "Healing Potion"
  const DefaultInventory: seq<string> := ["Rusty Sword", HealingPotion]

  /** A snapshot of every field of a player. */
  datatype Stats = Stats(name: string, level: int, hp: int, mp: int, xp: int, inventory: seq<string>)

  /** The ranges the game keeps the stats in. */
  predicate WithinBounds(s: Stats) {
    0 <= s.hp <= MaxHp && 0 <= s.mp <= MaxMp && s.level >= 1 && s.xp >= 0
  }

  /** The record a new game starts with: `Player()` with every argument defaulted. */
  const DefaultStats: Stats := Stats(DefaultName, 1, MaxHp, MaxMp, 0, DefaultInventory)

  /** `take_damage` on a snapshot: hp drops by `amount` but not below 0. */
  function Damaged(s: Stats, amount: int): Stats {
    s.(hp := if s.hp - amount < 0 then 0 else s.hp - amount)
  }

  /** `restore_hp` on a snapshot: hp rises by `amount` but not above 100. */
  function Healed(s: Stats, amount: int): Stats {
    s.(hp := if s.hp + amount > MaxHp then MaxHp else s.hp + amount)
  }

  /** `use_mp` on a snapshot: mp drops by `amount` but not below 0. */
  function MpUsed(s: Stats, amount: int): Stats {
    s.(mp := if s.mp - amount < 0 then 0 else s.mp - amount)
  }

  /** `gain_xp` on a snapshot: the gain is added and the threshold 100 * level is tested once. */
  function XpGained(s: Stats, amount: int): Stats {
    var xp := s.xp + amount;
    if xp >= 100 * s.level then s.(level := s.level + 1, xp := 0) else s.(xp := xp)
  }

  /**
   * The clamped updates: each touches only its own field, lands on the bound
   * or on the exact sum or difference, and never leaves the range.
   */
  lemma ClampedUpdates(s: Stats, amount: int)
    ensures var r := Damaged(s, amount);
      r == s.(hp := r.hp) && r.hp >= 0 && (r.hp == 0 || r.hp == s.hp - amount) && r.hp >= s.hp - amount
    ensures var r := Healed(s, amount);
      r == s.(hp := r.hp) && r.hp <= MaxHp && (r.hp == MaxHp || r.hp == s.hp + amount) && r.hp <= s.hp + amount
    ensures var r := MpUsed(s, amount);
      r == s.(mp := r.mp) && r.mp >= 0 && (r.mp == 0 || r.mp == s.mp - amount) && r.mp >= s.mp - amount
    ensures WithinBounds(s) && amount >= 0 ==>
      WithinBounds(Damaged(s, amount)) && WithinBounds(Healed(s, amount)) && WithinBounds(MpUsed(s, amount))
  {
  }

  /**
   * A single gain crosses at most one threshold: reaching 100 * level raises
   * the level by exactly one and empties the xp, anything less keeps the
   * level and adds the gain; xp stays below the new threshold.
   */
  lemma XpGainedLevelsOnce(s: Stats, amount: int)
    ensures var r := XpGained(s, amount);
      && r == s.(xp := r.xp, level := r.level)
      && (r.level == s.level + 1 <==> s.xp + amount >= 100 * s.level)
      && (r.level == s.level + 1 ==> r.xp == 0)
      && (r.level == s.level ==> r.xp == s.xp + amount)
      && r.level <= s.level + 1
      && (s.level >= 0 ==> r.xp < 100 * r.level)
      && (WithinBounds(s) && amount >= 0 ==> WithinBounds(r))
  {
  }

  /** The inventory a new player gets: an absent or empty list is replaced by the starter kit. */
  function StartingInventory(inventory: Option<seq<string>>): (r: seq<string>)
    ensures r != []
    ensures inventory.Some? && inventory.value != [] ==> r == inventory.value
    ensures inventory.None? || inventory.value == [] ==> r == DefaultInventory
  {
    if inventory.Some? && inventory.value != [] then inventory.value else DefaultInventory
  }

  class Player {
    var name: string
    var level: int
    var hp: int
    var mp: int
    var xp: int
    var inventory: seq<string>

    /** All fields of this player as one value. */
    function Snapshot(): Stats
      reads this
    {
      Stats(name, level, hp, mp, xp, inventory)
    }

    /** The stat ranges hold for this player. */
    predicate InBounds()
      reads this
    {
      WithinBounds(Snapshot())
    }

    /**
     * `Player(name, level, hp, mp, inventory, xp)`: the arguments are stored as
     * given, except that a missing or empty inventory becomes the starter kit.
     */
    constructor (name: string, level: int, hp: int, mp: int, inventory: Option<seq<string>>, xp: int)
      ensures Snapshot() == Stats(name, level, hp, mp, xp, StartingInventory(inventory))
    {
      this.name := name;
      this.level := level;
      this.hp := hp;
      this.mp := mp;
      this.xp := xp;
      this.inventory := StartingInventory(inventory);
    }

    /** `take_damage`. */
    method TakeDamage(amount: int)
      modifies this`hp
      ensures hp == if old(hp) - amount < 0 then 0 else old(hp) - amount
      ensures Snapshot() == Damaged(old(Snapshot()), amount)
      ensures old(InBounds()) && amount >= 0 ==> InBounds()
    {
      hp := if hp - amount < 0 then 0 else hp - amount;
    }

    /** `restore_hp`. */
    method RestoreHp(amount: int)
      modifies this`hp
      ensures hp == if old(hp) + amount > MaxHp then MaxHp else old(hp) + amount
      ensures Snapshot() == Healed(old(Snapshot()), amount)
      ensures old(InBounds()) && amount >= 0 ==> InBounds()
    {
      hp := if hp + amount > MaxHp then MaxHp else hp + amount;
    }

    /** `use_mp`. */
    method UseMp(amount: int)
      modifies this`mp
      ensures mp == if old(mp) - amount < 0 then 0 else old(mp) - amount
      ensures Snapshot() == MpUsed(old(Snapshot()), amount)
      ensures old(InBounds()) && amount >= 0 ==> InBounds()
    {
      mp := if mp - amount < 0 then 0 else mp - amount;
    }

    /** `restore_mp`: mp rises by `amount` but not above 50. */
    method RestoreMp(amount: int)
      modifies this`mp
      ensures mp == if old(mp) + amount > MaxMp then MaxMp else old(mp) + amount
      ensures mp <= MaxMp && (mp == MaxMp || mp == old(mp) + amount)
      ensures old(InBounds()) && amount >= 0 ==> InBounds()
    {
      mp := if mp + amount > MaxMp then MaxMp else mp + amount;
    }

    /** `gain_xp`: a single threshold test, so one call raises the level by at most one. */
    method GainXp(amount: int)
      modifies this`xp, this`level
      ensures old(xp) + amount >= 100 * old(level) ==> level == old(level) + 1 && xp == 0
      ensures old(xp) + amount < 100 * old(level) ==> level == old(level) && xp == old(xp) + amount
      ensures Snapshot() == XpGained(old(Snapshot()), amount)
      ensures old(InBounds()) && amount >= 0 ==> InBounds()
    {
      xp := xp + amount;
      if xp >= 100 * level {
        level := level + 1;
        xp := 0;
      }
    }

    /** `add_item`: the item goes at the end; earlier items keep their places. */
    method AddItem(item: string)
      modifies this`inventory
      ensures inventory == old(inventory) + [item]
      ensures |inventory| == |old(inventory)| + 1 && inventory[..|old(inventory)|] == old(inventory)
      ensures old(InBounds()) ==> InBounds()
    {
      inventory := inventory + [item];
    }
  }
}
