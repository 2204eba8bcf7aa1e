/**
 * The stage orchestrator: the object that owns the session record and the
 * current stage, and through which every stage changes score and awareness.
 * Configuration is given at construction (it is fetched over the network in
 * the original; a failed fetch is `None` and `[]`).
 */
module Arcade {
  import opened Options
  import opened SessionRules

  class SweetwaterArcade {
    /** `configs.marketing?.baselineMultiplier`, if the marketing configuration supplied one. */
    const baselineConfig: Option<real>
    /** `configs.personas || []`. */
    const personas: seq<Persona>

    var currentStage: StageId
    var score: int
    var awareness: real
    var timer: real
    var currentPersona: Option<Persona>

    /** The session record `gameState` as a value. */
    function State(): GameState
      reads this
    {
      GameState(score, awareness, timer, currentPersona)
    }

    /** The constructor's literal state: note that it uses 1.2, not the configured baseline. */
    constructor (baselineConfig: Option<real>, personas: seq<Persona>)
      ensures this.baselineConfig == baselineConfig && this.personas == personas
      ensures currentStage == Title
      ensures State() == GameState(0, DefaultBaseline, 0.0, None)
    {
      this.baselineConfig := baselineConfig;
      this.personas := personas;
      currentStage := Title;
      score := 0;
      awareness := 1.2;
      timer := 0.0;
      currentPersona := None;
    }

    /** Back to the title: the whole session record is reset, awareness to the baseline. */
    method ShowTitleScreen()
      modifies this
      ensures currentStage == Title
      ensures State() == TitleState(baselineConfig)
    {
      currentStage := Title;
      score := 0;
      awareness := Baseline(baselineConfig);
      timer := 0.0;
      currentPersona := None;
    }

    /**
     * The menu's start action: the session begins at the marketing stage,
     * whose `start()` touches the session only through `updateAwareness(0)`,
     * so a baseline above 3.0 is capped here.
     */
    method StartGame()
      modifies this
      ensures currentStage == Marketing
      ensures awareness == CapAwareness(old(awareness), 0.0)
      ensures score == old(score) && timer == old(timer) && currentPersona == old(currentPersona)
    {
      currentStage := Marketing;
      UpdateAwareness(0.0);
    }

    /**
     * Advance along the stage order; past its end (the celebration stage)
     * the session returns to the title state.
     */
    method NextStage()
      modifies this
      ensures old(currentStage) != Celebration ==> currentStage == NextStageOf(old(currentStage)).value
      ensures old(currentStage) != Celebration ==> State() == old(State())
      ensures old(currentStage) == Celebration ==> currentStage == Title && State() == TitleState(baselineConfig)
    {
      OnlyCelebrationEndsTheRun(currentStage);
      var currentIndex := IndexOf(StageOrder, currentStage);
      if currentIndex < |StageOrder| - 1 {
        currentStage := StageOrder[currentIndex + 1];
      } else {
        ShowTitleScreen();
      }
    }

    /** `addScore`: the reward is scaled by the current awareness and rounded down. */
    method AddScore(points: int)
      modifies this
      ensures score == old(score) + ScoreGain(points, old(awareness))
      ensures awareness == old(awareness) && timer == old(timer) && currentPersona == old(currentPersona)
      ensures currentStage == old(currentStage)
    {
      score := score + (points as real * awareness).Floor;
    }

    /** `updateAwareness`: the one awareness writer that caps at 3.0. */
    method UpdateAwareness(amount: real)
      modifies this
      ensures awareness == CapAwareness(old(awareness), amount)
      ensures score == old(score) && timer == old(timer) && currentPersona == old(currentPersona)
      ensures currentStage == old(currentStage)
    {
      if awareness + amount < 3.0 {
        awareness := awareness + amount;
      } else {
        awareness := 3.0;
      }
    }

    /**
     * `selectRandomPersona`, with `Math.random()` given as `draw`: a
     * persona other than the current one whenever the list has one.
     */
    method SelectRandomPersona(draw: real) returns (persona: Option<Persona>)
      requires 0.0 <= draw < 1.0
      modifies this
      ensures persona == currentPersona == ChoosePersona(personas, old(currentPersona), draw)
      ensures score == old(score) && awareness == old(awareness) && timer == old(timer)
      ensures currentStage == old(currentStage)
    {
      var available := Available(personas, currentPersona);
      if available != [] {
        currentPersona := Some(available[PickIndex(draw, |available|)]);
      } else if personas != [] {
        currentPersona := Some(personas[0]);
      } else {
        currentPersona := None;
      }
      persona := currentPersona;
    }
  }

  /**
   * The marketing stage's effects on the session.  Its text crawl, timer
   * and key listener are presentation and scheduling.
   */
  class MarketingStage {
    const game: SweetwaterArcade

    constructor (game: SweetwaterArcade)
      ensures this.game == game
    {
      this.game := game;
    }

    /** `start`: `updateAwareness(0)`, which only applies the 3.0 cap. */
    method Start()
      modifies game
      ensures game.awareness == CapAwareness(old(game.awareness), 0.0)
      ensures game.score == old(game.score) && game.timer == old(game.timer)
      ensures game.currentPersona == old(game.currentPersona) && game.currentStage == old(game.currentStage)
    {
      game.UpdateAwareness(0.0);
    }

    /**
     * `completeStage`: awareness is overwritten with the baseline, bypassing
     * `updateAwareness` and its cap; whatever happened before is discarded.
     * The advance to the next stage is a separate `NextStage` call.
     */
    method CompleteStage()
      modifies game
      ensures game.awareness == Baseline(game.baselineConfig)
      ensures game.score == old(game.score) && game.timer == old(game.timer)
      ensures game.currentPersona == old(game.currentPersona) && game.currentStage == old(game.currentStage)
    {
      game.awareness := Baseline(game.baselineConfig);
    }
  }
}
