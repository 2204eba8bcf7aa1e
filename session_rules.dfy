/**
 * The session rules of the arcade orchestrator, as values: the shared game
 * state record, the fixed stage order, the score and awareness arithmetic
 * and the choice of the next persona.  The class `SweetwaterArcade` (module
 * Arcade) updates its fields by exactly these rules.
 */
module SessionRules {
  import opened Options

  /** A customer archetype from the persona configuration. */
  datatype Persona = Persona(personaId: string, name: string)

  /** The stage identifiers the orchestrator switches between. */
  datatype StageId = Title | Marketing | WildCustomer | Sales | Merch | ITHub | Warehouse | Celebration

  /** The progression walked by `nextStage`; `Title` is not part of it. */
  const StageOrder: seq<StageId> := [Marketing, WildCustomer, Sales, Merch, ITHub, Warehouse, Celebration]

  const MaxAwareness: real := 3.0
  /** Awareness used when the marketing configuration gives no (or a falsy) baseline. */
  const DefaultBaseline: real := 1.2

  /**
   * The mutable session record `gameState`.  `selectedUpgrade` and
   * `stageStartTime` are left out: nothing in the core ever sets them to
   * anything but their reset values.
   */
  datatype GameState = GameState(score: int, awareness: real, timer: real, currentPersona: Option<Persona>)

  /**
   * `marketing?.baselineMultiplier || 1.2`: an absent configuration or a
   * falsy (zero) multiplier falls back to the default.
   */
  function Baseline(configured: Option<real>): (b: real)
    ensures b != 0.0
    ensures configured.Some? && configured.value != 0.0 ==> b == configured.value
    ensures configured.None? || configured.value == 0.0 ==> b == DefaultBaseline
  {
    if configured.Some? && configured.value != 0.0 then configured.value else DefaultBaseline
  }

  /** The record `showTitleScreen` installs. */
  function TitleState(configured: Option<real>): GameState
  {
    GameState(0, Baseline(configured), 0.0, None)
  }

  /** What `addScore(points)` adds: `Math.floor(points * awareness)`. */
  function ScoreGain(points: int, awareness: real): (gain: int)
    ensures gain as real <= points as real * awareness < gain as real + 1.0
  {
    (points as real * awareness).Floor
  }

  /** `updateAwareness(amount)`: add, then cap at 3.0; there is no lower clamp. */
  function CapAwareness(awareness: real, amount: real): (r: real)
    ensures r <= MaxAwareness
    ensures r <= awareness + amount
    ensures r == awareness + amount || r == MaxAwareness
  {
    if awareness + amount < MaxAwareness then awareness + amount else MaxAwareness
  }

  /** Awareness after a sequence of `updateAwareness` calls, in order. */
  function AdjustAll(awareness: real, amounts: seq<real>): real
    decreases amounts
  {
    if amounts == [] then awareness else AdjustAll(CapAwareness(awareness, amounts[0]), amounts[1..])
  }

  /** Whatever the amounts, once one update has run awareness is at most 3.0. */
  lemma {:induction false} AdjustAllCapped(awareness: real, amounts: seq<real>)
    requires awareness <= MaxAwareness || amounts != []
    ensures AdjustAll(awareness, amounts) <= MaxAwareness
    decreases amounts
  {
    if amounts != [] {
      AdjustAllCapped(CapAwareness(awareness, amounts[0]), amounts[1..]);
    }
  }

  function Repeat(amount: real, n: nat): (r: seq<real>)
    ensures |r| == n
    ensures forall i :: 0 <= i < n ==> r[i] == amount
  {
    if n == 0 then [] else [amount] + Repeat(amount, n - 1)
  }

  /** Penalties accumulate without any floor: `n` penalties of `p` lower awareness by exactly `n * p`. */
  lemma {:induction false} PenaltiesAccumulate(awareness: real, penalty: real, n: nat)
    requires awareness <= MaxAwareness && penalty <= 0.0
    ensures AdjustAll(awareness, Repeat(penalty, n)) == awareness + n as real * penalty
    decreases n
  {
    if n > 0 {
      var rest := Repeat(penalty, n - 1);
      assert Repeat(penalty, n)[1..] == rest;
      assert CapAwareness(awareness, penalty) == awareness + penalty;
      PenaltiesAccumulate(awareness + penalty, penalty, n - 1);
    }
  }

  /** So awareness can become negative: 25 wall penalties from the 1.2 baseline give -0.05. */
  lemma AwarenessCanGoNegative()
    ensures AdjustAll(DefaultBaseline, Repeat(-0.05, 25)) < 0.0
  {
    PenaltiesAccumulate(DefaultBaseline, -0.05, 25);
  }

  /** The two worked examples of the scoring rule. */
  lemma ScoreExamples()
    ensures ScoreGain(100, 2.0) == 200
    ensures ScoreGain(25, 1.2) == 30
  {
  }

  /** `Array.prototype.indexOf`: the first position of `s`, or -1. */
  function IndexOf(order: seq<StageId>, s: StageId): (i: int)
    ensures -1 <= i < |order|
    ensures i == -1 <==> s !in order
    ensures 0 <= i ==> order[i] == s && s !in order[..i]
  {
    if order == [] then -1
    else if order[0] == s then 0
    else
      var j := IndexOf(order[1..], s);
      if j == -1 then -1
      else
        assert order[..j + 1] == [order[0]] + order[1..][..j];
        j + 1
  }

  predicate Distinct(order: seq<StageId>)
  {
    forall j, k :: 0 <= j < k < |order| ==> order[j] != order[k]
  }

  lemma IndexOfDistinct(order: seq<StageId>, i: nat)
    requires Distinct(order) && i < |order|
    ensures IndexOf(order, order[i]) == i
  {
    var r := IndexOf(order, order[i]);
    assert order[r] == order[i];
  }

  /**
   * `nextStage`'s lookup: the successor in the stage order, or `None` when
   * the session must go back to the title screen.
   */
  function NextStageOf(current: StageId): (next: Option<StageId>)
    ensures next.Some? ==> next.value in StageOrder
    ensures current !in StageOrder ==> next == Some(Marketing)
  {
    var i := IndexOf(StageOrder, current);
    if i < |StageOrder| - 1 then Some(StageOrder[i + 1]) else None
  }

  /** No stage appears twice in the order. */
  lemma StageOrderDistinct()
    ensures Distinct(StageOrder)
  {
  }

  /** Each stage of the order hands over to the one after it ... */
  lemma NextStageFollowsOrder(i: nat)
    requires i < |StageOrder| - 1
    ensures NextStageOf(StageOrder[i]) == Some(StageOrder[i + 1])
  {
    StageOrderDistinct();
    IndexOfDistinct(StageOrder, i);
  }

  /** ... the last one returns to the title, and only the last one does. */
  lemma OnlyCelebrationEndsTheRun(s: StageId)
    ensures NextStageOf(s).None? <==> s == Celebration
  {
    var i := IndexOf(StageOrder, s);
    if s == Celebration {
      // the first occurrence is the last entry, since no earlier entry is the celebration
      assert Celebration !in StageOrder[..|StageOrder| - 1];
    } else {
      assert i != |StageOrder| - 1;
    }
  }

  /** The position `Math.floor(draw * n)` that a draw `0 <= draw < 1` picks out of `n` entries. */
  function PickIndex(draw: real, n: nat): (i: nat)
    requires 0.0 <= draw < 1.0
    ensures n == 0 ==> i == 0
    ensures n > 0 ==> i < n
  {
    ScaleBelow(draw, n as real);
    (draw * n as real).Floor
  }

  lemma ScaleBelow(draw: real, m: real)
    requires 0.0 <= draw < 1.0 && 0.0 <= m
    ensures 0.0 <= draw * m <= m
    ensures 0.0 < m ==> draw * m < m
  {
    assert 0.0 <= (1.0 - draw) * m;
  }

  /** Whether `p` has the same id as the current persona (never, when there is none). */
  predicate SameId(p: Persona, current: Option<Persona>)
  {
    current.Some? && p.personaId == current.value.personaId
  }

  /** `personas.filter(p => p.personaId !== currentPersona?.personaId)`, order kept. */
  function Available(personas: seq<Persona>, current: Option<Persona>): (r: seq<Persona>)
    ensures |r| <= |personas|
    ensures forall p :: p in r <==> p in personas && !SameId(p, current)
  {
    if personas == [] then []
    else (if SameId(personas[0], current) then [] else [personas[0]]) + Available(personas[1..], current)
  }

  /**
   * `selectRandomPersona`: a random persona whose id differs from the
   * current one; when there is none, the first persona; when the list is
   * empty, no persona.
   */
  function ChoosePersona(personas: seq<Persona>, current: Option<Persona>, draw: real): (r: Option<Persona>)
    requires 0.0 <= draw < 1.0
    ensures r.None? <==> personas == []
    ensures r.Some? ==> r.value in personas
    ensures (exists p :: p in personas && !SameId(p, current)) <==> r.Some? && !SameId(r.value, current)
  {
    var available := Available(personas, current);
    if available != [] then Some(available[PickIndex(draw, |available|)])
    else if personas != [] then Some(personas[0])
    else None
  }
}
