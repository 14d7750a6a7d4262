/**
 * The game session of llm_adventure.py: the state the Streamlit session keeps
 * (history, current narrative and options, the started flag, the engine, the
 * player, the system environment and the last effect message) and the
 * transitions `start_adventure`, the option click inside `render_game`, the
 * display of the last effect, and `restart_game`.
 *
 * The language-model reply is an input string; the environment is an opaque
 * value of type `Env` that a refresh replaces; every random draw is a
 * parameter whose range is a precondition.
 */
module LlmAdventure {
  import opened Wrappers
  import opened Text
  import opened Players
  import opened GameMechanics
  import opened AdventureEngines

  class Session<Env> {
    var history: seq<HistoryEntry>
    var currentNarrative: string
    var currentOptions: seq<string>
    var gameStarted: bool
    const engine: AdventureEngine
    var player: Player
    var environment: Env
    var lastEffect: Option<string>

    /**
     * What the transitions keep true: the player's stats are in range, the
     * options on offer are none or the three of a parsed beat, and a session
     * that has not started has no history, narrative or options.
     */
    predicate Valid()
      reads this, player
    {
      && player.InBounds()
      && ShowsBeat()
      && (!gameStarted ==> history == [] && currentNarrative == "" && currentOptions == [])
    }

    /** The narrative and options on display are those of a parsed beat, or nothing yet. */
    predicate ShowsBeat()
      reads this
    {
      || (currentNarrative == "" && currentOptions == [])
      || WellFormedBeat(Beat(currentNarrative, currentOptions))
    }

    /** The two assignments that put a parsed beat on display. */
    method Show(beat: Beat)
      requires WellFormedBeat(beat)
      modifies this`currentNarrative, this`currentOptions
      ensures currentNarrative == beat.narrative && currentOptions == beat.options
      ensures ShowsBeat()
      ensures old(Valid()) && gameStarted ==> Valid()
    {
      currentNarrative := beat.narrative;
      currentOptions := beat.options;
    }

    /**
     * The tail shared by `start_adventure` and the option click: the reply is
     * parsed and, when it parses, its narrative and options go on display;
     * when it does not, the parser's IndexError leaves them as they were.
     */
    method ShowReply(reply: string) returns (parsed: Result<Beat, ParseError>)
      requires ShowsBeat()
      modifies this`currentNarrative, this`currentOptions
      ensures parsed == Parse(reply)
      ensures parsed.Success? ==>
        currentNarrative == parsed.value.narrative && currentOptions == parsed.value.options
      ensures parsed.Failure? ==>
        currentNarrative == old(currentNarrative) && currentOptions == old(currentOptions)
      ensures ShowsBeat()
    {
      parsed := engine.ParseResponse(reply);
      if parsed.Success? {
        ParsedBeatWellFormed(SplitLines(reply));
        Show(parsed.value);
      }
    }

    /** `initialize_state` on a new session: nothing played, a default player. */
    constructor (initialEnvironment: Env)
      ensures history == [] && currentNarrative == "" && currentOptions == [] && !gameStarted
      ensures engine.startingPrompt == StartingPrompt && engine.iterationPrompt == IterationPrompt
      ensures fresh(player) && player.Snapshot() == DefaultStats
      ensures environment == initialEnvironment && lastEffect == None
      ensures Valid()
    {
      history := [];
      currentNarrative := "";
      currentOptions := [];
      gameStarted := false;
      engine := new AdventureEngine();
      player := new Player(DefaultName, 1, MaxHp, MaxMp, None, 0);
      environment := initialEnvironment;
      lastEffect := None;
    }

    /**
     * `start_adventure`, which runs only while the game has not started: the
     * prompt is the starting prompt, and a reply that parses becomes the
     * current beat and starts the game; one that does not changes nothing.
     */
    method StartAdventure(reply: string) returns (prompt: string, parsed: Result<Beat, ParseError>)
      requires Valid() && !gameStarted
      modifies this`currentNarrative, this`currentOptions, this`gameStarted
      ensures prompt == engine.startingPrompt
      ensures parsed == Parse(reply)
      ensures parsed.Success? ==>
        currentNarrative == parsed.value.narrative && currentOptions == parsed.value.options && gameStarted
      ensures parsed.Failure? ==>
        currentNarrative == old(currentNarrative) && currentOptions == old(currentOptions) && !gameStarted
      ensures Valid()
    {
      // An empty history returns the starting prompt before any count is drawn.
      prompt := engine.GeneratePrompt(history, None, 0);
      parsed := ShowReply(reply);
      if parsed.Success? {
        gameStarted := true;
      }
    }

    /**
     * A click on one of the options on offer, up to the game-over check (the
     * choice branch of `render_game`): the option and the narrative it
     * answered go into the history and the effect is applied to the player.
     * When the resolver's assertion fails the click ends there; otherwise the
     * effect message is kept and the environment is refreshed. The game-over
     * test that follows can never stop the click, because the assertion has
     * already failed whenever hp is not positive.
     */
    method Choose(option: string, roll: Roll, refreshed: Env) returns (effect: Result<string, AssertionError>)
      requires Valid() && currentNarrative != "" && option in currentOptions
      requires RollFits(Classify(option), roll)
      modifies this`history, this`environment, this`lastEffect
      modifies player`hp, player`mp, player`xp, player`level, player`inventory
      ensures history == old(history) + [HistoryEntry(option, currentNarrative)]
      ensures Resolution(player.Snapshot(), effect) == Resolve(old(player.Snapshot()), option, roll)
      ensures effect.Failure? ==> environment == old(environment) && lastEffect == old(lastEffect)
      ensures effect.Success? ==> environment == refreshed && lastEffect == Some(effect.value) && player.hp > 0
      ensures Valid() && gameStarted
    {
      history := history + [HistoryEntry(option, currentNarrative)];
      effect := UpdatePlayerStats(player, option, roll);
      assert player.InBounds() && ShowsBeat();
      if effect.Success? {
        lastEffect := Some(effect.value);
        environment := refreshed;
        if player.hp <= 0 {
          // Game over: unreachable, the resolver has already failed whenever hp is not positive.
          assert false;
        }
      }
    }

    /**
     * The prompt a click that passed the game-over check sends to the model:
     * built over the history with the option just chosen (the last history
     * entry's) and the drawn number of templates.
     */
    method NextPrompt(numOptions: nat) returns (prompt: string)
      requires gameStarted && history != []
      requires 2 <= numOptions <= 3
      ensures prompt == Prompt(engine.startingPrompt, engine.iterationPrompt, history, Some(history[|history| - 1].choice), numOptions)
    {
      var option := history[|history| - 1].choice;
      prompt := engine.GeneratePrompt(history, Some(option), numOptions);
    }

    /**
     * The end of a click: the model's reply to the next prompt becomes the
     * next beat when it parses; when it does not, the parser's IndexError
     * leaves the beat in place.
     */
    method ShowNextBeat(reply: string) returns (parsed: Result<Beat, ParseError>)
      requires Valid() && gameStarted
      modifies this`currentNarrative, this`currentOptions
      ensures parsed == Parse(reply)
      ensures parsed.Success? ==>
        currentNarrative == parsed.value.narrative && currentOptions == parsed.value.options
      ensures parsed.Failure? ==>
        currentNarrative == old(currentNarrative) && currentOptions == old(currentOptions)
      ensures Valid()
    {
      parsed := ShowReply(reply);
    }

    /** The display of the last effect in `render_game`: shown once, then removed. */
    method TakeLastEffect() returns (effect: Option<string>)
      modifies this`lastEffect
      ensures effect == old(lastEffect) && lastEffect == None
      ensures old(Valid()) ==> Valid()
    {
      effect := lastEffect;
      lastEffect := None;
    }

    /**
     * `restart_game`: history, narrative, options and the started flag are
     * reset and a new default player replaces the old one; the engine, the
     * environment and the last effect message are kept.
     */
    method Restart()
      modifies this`history, this`currentNarrative, this`currentOptions, this`gameStarted, this`player
      ensures history == [] && currentNarrative == "" && currentOptions == [] && !gameStarted
      ensures fresh(player) && player.Snapshot() == DefaultStats
      ensures Valid()
    {
      history := [];
      currentNarrative := "";
      currentOptions := [];
      gameStarted := false;
      player := new Player(DefaultName, 1, MaxHp, MaxMp, None, 0);
    }
  }
}
