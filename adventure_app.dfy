/**
 * The static choose-your-own-adventure of adventure_app.py: a constant table
 * of chapters, the lookup into it, and the navigation state (current chapter,
 * path taken, and the once-only coin flip of the coffee branch).
 */
module AdventureApp {
  import opened Wrappers

  /** A button of a chapter: its label (the `label` key) and the chapter it leads to. */
  datatype Choice = Choice(caption: string, destination: string)

  /** `Chapter`: an adventure branch; `endpoint` marks an ending. */
  datatype Chapter = Chapter(id: string, title: string, text: string, choices: seq<Choice>, endpoint: bool)

  /** The pseudo-chapter resolved by a coin flip; it has no table entry. */
  const CoffeeAccept: string := "coffee_accept"
  const StartId: string := "start"
  const EspressoExplosion: string := "espresso_explosion"
  const CaffeineCraze: string := "caffeine_craze"

  /** The `chapters` table. */
  const Chapters: map<string, Chapter> := map[
    StartId := Chapter(
      StartId,
      "The Overengineered Quest Begins",
      "Welcome, brave adventurer, to the land of absurdity. You stand at a crossroads made of glittering code and caffeinated dreams. Where will you go?",
      [Choice("Venture to the Donut Village", "donut_village"), Choice("Enter the Coffee Forest", "coffee_forest")],
      false),
    "donut_village" := Chapter(
      "donut_village",
      "Donut Village",
      "You arrive in the whimsical Donut Village, where every street smells of sugary delight and there's a secret bakery in the center.",
      [Choice("Enter the mysterious bakery", "bakery"), Choice("Talk to the eccentric donut mayor", "mayor")],
      false),
    "coffee_forest" := Chapter(
      "coffee_forest",
      "Coffee Forest",
      "You wander into the Coffee Forest. Trees drip steaming espresso and the aroma jolts your senses into hyperdrive. A chatty squirrel offers you a sample of her special brew.",
      [Choice("Accept the sample (Risky caffeine boost!)", CoffeeAccept), Choice("Politely decline the sample", "decline_coffee")],
      false),
    "bakery" := Chapter(
      "bakery",
      "The Enchanted Bakery",
      "Inside the bakery, you witness a marvel: a magical, self-refilling donut machine that sings show tunes. The air is thick with mystery and frosting.",
      [Choice("Devour a magical donut", "donut_delight"), Choice("Investigate the secret ingredient", "ingredient_mystery")],
      false),
    "mayor" := Chapter(
      "mayor",
      "The Donut Mayor",
      "The donut mayor, a round man with sprinkles of wisdom, engages you in a heated debate about the existential meaning of glazed existence.",
      [Choice("Join the debate", "debate"), Choice("Escape to a quiet corner", "quiet_corner")],
      false),
    "decline_coffee" := Chapter(
      "decline_coffee",
      "Abstaining from Caffeine",
      "You quietly avoid the sample and continue pondering what life in the Coffee Forest is like without a jolt of java. Perhaps caution is golden?",
      [Choice("Return to the crossroads", StartId)],
      false),
    EspressoExplosion := Chapter(
      EspressoExplosion,
      "Espresso Explosion",
      "The caffeinated sample triggers an unintended explosion, propelling you into a parallel universe where espresso and foam art govern reality.",
      [Choice("Navigate through the nebula of nerves", "cosmic_caffeine"), Choice("Wade through the creamy aftermath", "aftermath")],
      false),
    CaffeineCraze := Chapter(
      CaffeineCraze,
      "Caffeine Craze",
      "The sample sends you spiraling into a jittery frenzy of hilariously erratic behavior. The world becomes a blur of hyperactive hijinks.",
      [Choice("Embrace the madness", "madness"), Choice("Seek refuge in a quiet monastery", "monastery")],
      false),
    "donut_delight" := Chapter(
      "donut_delight",
      "Donut Delight",
      "You devour the magical donut and are transformed into a being of pure sugary radiance. The universe now makes a bit more sense.",
      [],
      true),
    "ingredient_mystery" := Chapter(
      "ingredient_mystery",
      "Ingredient Mystery",
      "Your investigation reveals the secret ingredient to be the laughter of a thousand clowns. Absurdity overwhelms you and your quest ends in delicious bewilderment.",
      [],
      true),
    "debate" := Chapter(
      "debate",
      "Intellectual Butter",
      "The debate about sprinkles and existential meaning rages on until you're drenched in the butter of intellectual insight. Victory is bittersweet.",
      [],
      true),
    "quiet_corner" := Chapter(
      "quiet_corner",
      "Quiet Contemplation",
      "In a quiet corner, you find solace and ponder the cosmic insignificance of sprinkles. A peaceful, if underwhelming, end.",
      [],
      true),
    "cosmic_caffeine" := Chapter(
      "cosmic_caffeine",
      "Cosmic Caffeine",
      "Through a nebula of nerves you navigate an odyssey of celestial latte art, emerging as the unsung hero of a caffeinated cosmos.",
      [],
      true),
    "aftermath" := Chapter(
      "aftermath",
      "Creamy Aftermath",
      "After the espresso explosion, you find tranquility in a slow drip of life. Adventure, it seems, always turns unexpectedly mellow.",
      [],
      true),
    "madness" := Chapter(
      "madness",
      "Madness Maven",
      "In a state of blissful madness, logic dissolves and you become a legend of irreverent genius.",
      [],
      true),
    "monastery" := Chapter(
      "monastery",
      "Monastic Mellow",
      "In a secluded monastery, you seek inner peace and leave behind the hyperactive escapades. Enlightenment becomes your true adventure.",
      [],
      true)
  ]

  /** `get_chapter`: the table entry, or nothing for an unknown id. */
  function GetChapter(chapterId: string): (r: Option<Chapter>)
    ensures r.Some? <==> chapterId in Chapters
    ensures r.Some? ==> r.value == Chapters[chapterId]
  {
    if chapterId in Chapters then Some(Chapters[chapterId]) else None
  }

  /** A chapter that ends the adventure: marked as an endpoint or offering no choice. */
  predicate IsTerminal(c: Chapter) {
    c.endpoint || |c.choices| == 0
  }

  /** The coin-flip pseudo-chapter is not in the table, so looking it up finds nothing. */
  lemma CoffeeAcceptHasNoEntry()
    ensures GetChapter(CoffeeAccept) == None
  {
  }

  /** Each entry is filed under its own id. */
  lemma IdsMatchKeys(chapterId: string)
    requires chapterId in Chapters
    ensures Chapters[chapterId].id == chapterId
  {
  }

  /** Every choice leads to a chapter of the table, or to the coin-flip pseudo-chapter. */
  lemma TableClosed(chapterId: string, k: nat)
    requires chapterId in Chapters && k < |Chapters[chapterId].choices|
    ensures var dest := Chapters[chapterId].choices[k].destination;
      dest in Chapters || dest == CoffeeAccept
  {
  }

  /** Endpoints are exactly the chapters without choices. */
  lemma EndpointIffNoChoices(chapterId: string)
    requires chapterId in Chapters
    ensures Chapters[chapterId].endpoint <==> Chapters[chapterId].choices == []
  {
  }

  /** Only the coffee forest leads to the coin flip. */
  lemma OnlyForestLeadsToCoffee(chapterId: string, k: nat)
    requires chapterId in Chapters && k < |Chapters[chapterId].choices|
    requires Chapters[chapterId].choices[k].destination == CoffeeAccept
    ensures chapterId == "coffee_forest"
  {
  }

  /**
   * The navigation state of one visitor: `current_chapter`, `path_taken`,
   * `coffee_computed`, and `coffee_result`, whose float outcome is modelled
   * as whether it fell below 0.5.
   */
  class Navigator {
    var currentChapter: string
    var pathTaken: seq<string>
    var coffeeComputed: bool
    var coffeeResult: Option<bool>

    /**
     * What navigation keeps true: the path ends in the current chapter, which
     * is in the table or is the coin flip, and a computed coin flip is the one
     * that led to the current chapter.
     */
    predicate Valid()
      reads this
    {
      && pathTaken != []
      && pathTaken[|pathTaken| - 1] == currentChapter
      && (currentChapter in Chapters || currentChapter == CoffeeAccept)
      && (coffeeComputed ==>
            coffeeResult.Some?
            && currentChapter == if coffeeResult.value then EspressoExplosion else CaffeineCraze)
    }

    /** `init_state` on a new session. */
    constructor ()
      ensures currentChapter == StartId && pathTaken == [StartId]
      ensures !coffeeComputed && coffeeResult == None
      ensures Valid()
    {
      currentChapter := StartId;
      pathTaken := [StartId];
      coffeeComputed := false;
      coffeeResult := None;
    }

    /** `reset_game`: back to the start, with the coin flip forgotten. */
    method Reset()
      modifies this
      ensures currentChapter == StartId && pathTaken == [StartId]
      ensures !coffeeComputed && coffeeResult == None
      ensures Valid()
    {
      currentChapter := StartId;
      pathTaken := [StartId];
      coffeeComputed := false;
      if coffeeResult.Some? {
        coffeeResult := None;
      }
    }

    /**
     * The coffee branch of `main`: at the coin flip, and only if it has not been
     * computed yet, an outcome below 0.5 leads to the espresso explosion and any
     * other to the caffeine craze; the outcome is kept and the new chapter is
     * appended to the path. Anywhere else nothing changes.
     */
    method ResolveCoffee(belowHalf: bool)
      modifies this
      ensures old(currentChapter) == CoffeeAccept && !old(coffeeComputed) ==>
        && currentChapter == (if belowHalf then EspressoExplosion else CaffeineCraze)
        && coffeeComputed && coffeeResult == Some(belowHalf)
        && pathTaken == old(pathTaken) + [currentChapter]
      ensures !(old(currentChapter) == CoffeeAccept && !old(coffeeComputed)) ==>
        && currentChapter == old(currentChapter) && pathTaken == old(pathTaken)
        && coffeeComputed == old(coffeeComputed) && coffeeResult == old(coffeeResult)
      ensures old(Valid()) ==> Valid() && currentChapter in Chapters
    {
      if currentChapter == CoffeeAccept && !coffeeComputed {
        coffeeResult := Some(belowHalf);
        currentChapter := if belowHalf then EspressoExplosion else CaffeineCraze;
        coffeeComputed := true;
        pathTaken := pathTaken + [currentChapter];
      }
    }

    /**
     * A click on choice `k` of a chapter that offers choices: the destination
     * becomes the current chapter and is appended to the path, and leaving the
     * coffee branch forgets the coin flip.
     */
    method Move(k: nat)
      requires currentChapter in Chapters && !IsTerminal(Chapters[currentChapter])
      requires k < |Chapters[currentChapter].choices|
      modifies this
      ensures var dest := old(Chapters[currentChapter].choices[k].destination);
        && currentChapter == dest
        && pathTaken == old(pathTaken) + [dest]
        && coffeeComputed == (dest == CoffeeAccept && old(coffeeComputed))
        && coffeeResult == old(coffeeResult)
      ensures old(Valid()) ==> Valid()
    {
      var dest := Chapters[currentChapter].choices[k].destination;
      TableClosed(currentChapter, k);
      if dest != CoffeeAccept {
        coffeeComputed := false;
      } else {
        OnlyForestLeadsToCoffee(currentChapter, k);
      }
      currentChapter := dest;
      pathTaken := pathTaken + [dest];
    }
  }
}
