/** The example bot's policy (examples/python/simple_bot.py): a preflop
    strength tier for the hole cards and a branch table from phase, tier and
    price to an action. The random draw is a parameter; the float thresholds
    `chips * 0.1`, `chips * 0.05` and `pot * 0.5` are compared exactly. */
module Strategy {
  import opened Wrappers
  import opened HandStates

  /** `RANK_VALUES`; any other rank counts as 0. */
  const RankValues: map<string, nat> := map[
    "2" := 2, "3" := 3, "4" := 4, "5" := 5, "6" := 6, "7" := 7, "8" := 8,
    "9" := 9, "10" := 10, "J" := 11, "Q" := 12, "K" := 13, "A" := 14]

  function RankValue(rank: string): (v: nat)
    ensures v == 0 <==> rank !in RankValues
    ensures v == 0 || 2 <= v <= 14
  {
    if rank in RankValues then RankValues[rank] else 0
  }

  function Max(a: int, b: int): int { if a >= b then a else b }
  function Min(a: int, b: int): int { if a <= b then a else b }

  datatype Tier = Premium | Good | Playable | Weak

  /** `evaluate_preflop`: the first rule that matches decides the tier. */
  function EvaluatePreflop(cards: seq<Card>): (tier: Tier)
    ensures tier != Weak ==> |cards| >= 2
    ensures tier == Premium ==> RankValue(cards[0].rank) >= 12 && RankValue(cards[1].rank) >= 12
    ensures tier == Good ==> RankValue(cards[0].rank) >= 10 && RankValue(cards[1].rank) >= 10
    ensures tier == Playable ==> Max(RankValue(cards[0].rank), RankValue(cards[1].rank)) >= 7
  {
    if |cards| < 2 then Weak
    else
      var c1, c2 := cards[0], cards[1];
      var r1, r2 := RankValue(c1.rank), RankValue(c2.rank);
      var isPair := c1.rank == c2.rank;
      var isSuited := c1.suit == c2.suit;
      var high, low := Max(r1, r2), Min(r1, r2);
      var gap := high - low;
      if isPair && high >= 12 then Premium
      else if high == 14 && low == 13 && isSuited then Premium
      else if isPair && high >= 10 then Good
      else if high == 14 && low >= 12 then Good
      else if high == 13 && low == 12 && isSuited then Good
      else if isPair && high >= 7 then Playable
      else if isSuited && gap <= 2 && high >= 8 then Playable
      else if isSuited && high == 14 then Playable
      else Weak
  }

  /** Fewer than two cards is always weak, and only the first two count. */
  lemma FirstTwoCardsDecide(cards: seq<Card>)
    ensures |cards| < 2 ==> EvaluatePreflop(cards) == Weak
    ensures |cards| >= 2 ==> EvaluatePreflop(cards) == EvaluatePreflop(cards[..2])
  {
  }

  /** A pocket pair's tier depends only on its rank: Q and up premium (the
      QQ+ rule comes before the TT+ rule), T and J good, 7 to 9 playable,
      lower or unknown ranks weak. */
  lemma PocketPairTier(c1: Card, c2: Card)
    requires c1.rank == c2.rank
    ensures var v := RankValue(c1.rank); var t := EvaluatePreflop([c1, c2]);
      (v >= 12 ==> t == Premium) &&
      (10 <= v < 12 ==> t == Good) &&
      (7 <= v < 10 ==> t == Playable) &&
      (v < 7 ==> t == Weak)
  {
  }

  /** Two hidden cards look like a pair, of value 0, and are weak. */
  lemma HiddenCardsAreWeak()
    ensures EvaluatePreflop([Hidden, Hidden]) == Weak
  {
  }

  /** The order of the two hole cards does not matter: only their highest
      and lowest rank, pairedness and suitedness are used. */
  lemma PreflopSymmetric(c1: Card, c2: Card)
    ensures EvaluatePreflop([c1, c2]) == EvaluatePreflop([c2, c1])
  {
  }

  /** A card of unknown rank, in either position, is weak beside anything but
      an Ace; beside an Ace it is playable when suited (the suited-Ace rule)
      and weak offsuit. */
  lemma UnknownRankTier(c1: Card, c2: Card)
    requires RankValue(c1.rank) == 0
    ensures EvaluatePreflop([c2, c1]) == EvaluatePreflop([c1, c2])
    ensures c2.rank != "A" ==> EvaluatePreflop([c1, c2]) == Weak
    ensures c2.rank == "A" ==> EvaluatePreflop([c1, c2]) == if c1.suit == c2.suit then Playable else Weak
  {
    PreflopSymmetric(c1, c2);
  }

  /** Ace with King or Queen, in either order: suited A-K premium, every
      other such hand good. */
  lemma AceBroadwayTier(c1: Card, c2: Card)
    requires c1.rank == "A" && (c2.rank == "K" || c2.rank == "Q")
    ensures EvaluatePreflop([c2, c1]) == EvaluatePreflop([c1, c2])
    ensures c2.rank == "K" && c1.suit == c2.suit ==> EvaluatePreflop([c1, c2]) == Premium
    ensures !(c2.rank == "K" && c1.suit == c2.suit) ==> EvaluatePreflop([c1, c2]) == Good
  {
    PreflopSymmetric(c1, c2);
  }

  /** King-Queen, in either order, is good suited and weak offsuit. */
  lemma KingQueenTier(c1: Card, c2: Card)
    requires c1.rank == "K" && c2.rank == "Q"
    ensures EvaluatePreflop([c2, c1]) == EvaluatePreflop([c1, c2])
    ensures EvaluatePreflop([c1, c2]) == if c1.suit == c2.suit then Good else Weak
  {
    PreflopSymmetric(c1, c2);
  }

  /** Two suited cards of different ranks: suited A-K is premium, suited A-Q
      and K-Q good; otherwise a suited connector (gap at most 2, high card 8
      or more) or a suited Ace is playable, and anything else weak. */
  lemma SuitedNonPairTier(c1: Card, c2: Card)
    requires c1.suit == c2.suit && c1.rank != c2.rank
    ensures var high := Max(RankValue(c1.rank), RankValue(c2.rank));
      var low := Min(RankValue(c1.rank), RankValue(c2.rank));
      EvaluatePreflop([c1, c2]) ==
        if high == 14 && low == 13 then Premium
        else if (high == 14 && low == 12) || (high == 13 && low == 12) then Good
        else if (high - low <= 2 && high >= 8) || high == 14 then Playable
        else Weak
  {
  }

  /** Two offsuit cards of different ranks are good when they are A-K or A-Q
      and weak otherwise: no offsuit non-pair is premium or playable. */
  lemma OffsuitNonPairTier(c1: Card, c2: Card)
    requires c1.suit != c2.suit && c1.rank != c2.rank
    ensures var high := Max(RankValue(c1.rank), RankValue(c2.rank));
      var low := Min(RankValue(c1.rank), RankValue(c2.rank));
      EvaluatePreflop([c1, c2]) == if high == 14 && low >= 12 then Good else Weak
  {
  }

  datatype ActionKind = Fold | Check | Call | Raise | AllIn

  /** An action and, for a raise, the total bet it raises to. The rationale
      text is telemetry and is not modelled. */
  datatype Decision = Decision(action: ActionKind, amount: Option<int>)

  /** The policy has no cards to judge: none dealt, or the first one hidden. */
  predicate NoVisibleCards(state: HandState) {
    state.yourCards == [] || state.yourCards[0].rank == "?"
  }

  /** `decide_action`; `draw` is the value `random.random()` returns on the
      branches that consult it. */
  function DecideAction(state: HandState, draw: real): (d: Decision)
    ensures d.amount.Some? <==> d.action == Raise
    ensures d.action != AllIn
    ensures d.action == Fold ==> state.CallAmount() > 0
    ensures d.action == Call ==> state.CallAmount() > 0
    ensures d.action == Check && state.CallAmount() > 0 ==> NoVisibleCards(state)
  {
    if NoVisibleCards(state) then Decision(Check, None)
    else
      var tier := EvaluatePreflop(state.yourCards);
      var call := state.CallAmount();
      var pot := state.pot;
      var chips := state.yourChips;
      if state.phase == "preflop" then
        match tier
        case Premium => Decision(Raise, Some(Min(pot * 3, chips)))
        case Good =>
          if call == 0 then Decision(Raise, Some(Min(state.currentBet + pot / 2, chips)))
          else if 10 * call <= chips then Decision(Call, None)
          else Decision(Call, None)
        case Playable =>
          if call == 0 then
            if draw < 0.3 then Decision(Raise, Some(state.currentBet + state.currentBet / 2))
            else Decision(Check, None)
          else if 20 * call <= chips then Decision(Call, None)
          else Decision(Fold, None)
        case Weak =>
          if call == 0 then
            if draw < 0.2 then Decision(Check, None) else Decision(Check, None)
          else Decision(Fold, None)
      else
        if call == 0 then
          if draw < 0.3 then Decision(Raise, Some(Min(pot / 2, chips)))
          else Decision(Check, None)
        else if 2 * call <= pot then
          if tier == Premium || tier == Good || draw < 0.4 then Decision(Call, None)
          else Decision(Fold, None)
        else if tier == Premium then Decision(Call, None)
        else Decision(Fold, None)
  }

  /** The preflop "mixing" raise of a playable hand with nothing to call. */
  predicate IsMixingRaise(state: HandState) {
    !NoVisibleCards(state) && state.phase == "preflop" &&
    EvaluatePreflop(state.yourCards) == Playable && state.CallAmount() == 0
  }

  /** Every raise is within our chips, except the mixing raise. */
  lemma RaiseWithinChips(state: HandState, draw: real)
    requires DecideAction(state, draw).action == Raise
    requires !IsMixingRaise(state)
    ensures DecideAction(state, draw).amount.value <= state.yourChips
  {
  }

  /** The mixing raise is not capped: it can ask for more than our chips. */
  lemma MixingRaiseIsUncapped()
    ensures var state := HandState("preflop", 40, [], [Card("hearts", "9"), Card("hearts", "8")],
                                   200, 200, 100, true, 2, []);
      IsMixingRaise(state) &&
      DecideAction(state, 0.1) == Decision(Raise, Some(300)) && 300 > state.yourChips
  {
  }

  /** Without visible cards the answer is always a plain check. */
  lemma NoCardsChecks(state: HandState, draw: real)
    requires NoVisibleCards(state)
    ensures DecideAction(state, draw) == Decision(Check, None)
  {
  }

  /** Preflop branches that do not consult the draw: a premium hand raises to
      three pots (capped by chips); a good hand raises to the current bet plus
      half the pot (capped) when free and otherwise calls, never folding; a
      weak hand checks when free and folds to any bet. */
  lemma PreflopDeterministicTiers(state: HandState, draw: real)
    requires !NoVisibleCards(state) && state.phase == "preflop"
    ensures var d := DecideAction(state, draw); var tier := EvaluatePreflop(state.yourCards);
      (tier == Premium ==> d == Decision(Raise, Some(Min(state.pot * 3, state.yourChips)))) &&
      (tier == Good && state.CallAmount() == 0 ==>
         d == Decision(Raise, Some(Min(state.currentBet + state.pot / 2, state.yourChips)))) &&
      (tier == Good && state.CallAmount() > 0 ==> d == Decision(Call, None)) &&
      (tier == Weak && state.CallAmount() == 0 ==> d == Decision(Check, None)) &&
      (tier == Weak && state.CallAmount() > 0 ==> d == Decision(Fold, None))
  {
  }

  /** A playable hand facing a bet calls exactly when the call is at most 5%
      of our chips, and folds otherwise. */
  lemma PreflopPlayableFacingBet(state: HandState, draw: real)
    requires !NoVisibleCards(state) && state.phase == "preflop"
    requires EvaluatePreflop(state.yourCards) == Playable && state.CallAmount() > 0
    ensures DecideAction(state, draw).action == Call <==> 20 * state.CallAmount() <= state.yourChips
    ensures DecideAction(state, draw).action in {Call, Fold}
  {
  }

  /** Postflop (any phase but "preflop"): a free decision bets half the pot
      (capped) or checks; a bet of at most half the pot is called with a
      premium or good hand; a bigger bet is called only with a premium hand. */
  lemma PostflopPolicy(state: HandState, draw: real)
    requires !NoVisibleCards(state) && state.phase != "preflop"
    ensures var d := DecideAction(state, draw); var tier := EvaluatePreflop(state.yourCards);
      (state.CallAmount() == 0 ==>
         d == Decision(Raise, Some(Min(state.pot / 2, state.yourChips))) || d == Decision(Check, None)) &&
      (state.CallAmount() > 0 && 2 * state.CallAmount() <= state.pot && tier in {Premium, Good} ==>
         d == Decision(Call, None)) &&
      (state.CallAmount() > 0 && 2 * state.CallAmount() > state.pot ==> (d.action == Call <==> tier == Premium))
  {
  }

  /** The mixing branch: a playable hand with nothing to call preflop raises
      to one and a half times the current bet when the draw is below 0.3,
      uncapped, and checks otherwise. */
  lemma PreflopPlayableFree(state: HandState, draw: real)
    requires IsMixingRaise(state)
    ensures DecideAction(state, draw) ==
      if draw < 0.3 then Decision(Raise, Some(state.currentBet + state.currentBet / 2)) else Decision(Check, None)
  {
  }

  /** Postflop with nothing to call: a bet of half the pot, capped by our
      chips, when the draw is below 0.3, and a check otherwise. */
  lemma PostflopFreeDecision(state: HandState, draw: real)
    requires !NoVisibleCards(state) && state.phase != "preflop" && state.CallAmount() == 0
    ensures DecideAction(state, draw) ==
      if draw < 0.3 then Decision(Raise, Some(Min(state.pot / 2, state.yourChips))) else Decision(Check, None)
  {
  }

  /** Postflop, a hand below good facing a bet of at most half the pot calls
      when the draw is below 0.4 and folds otherwise. */
  lemma PostflopSmallBetWeakerHand(state: HandState, draw: real)
    requires !NoVisibleCards(state) && state.phase != "preflop"
    requires state.CallAmount() > 0 && 2 * state.CallAmount() <= state.pot
    requires EvaluatePreflop(state.yourCards) !in {Premium, Good}
    ensures DecideAction(state, draw) == if draw < 0.4 then Decision(Call, None) else Decision(Fold, None)
  {
  }

  /** Postflop, a bet of more than half the pot is called with a premium hand
      and folded to with any other, whatever the draw. */
  lemma PostflopBigBet(state: HandState, draw: real)
    requires !NoVisibleCards(state) && state.phase != "preflop"
    requires state.CallAmount() > 0 && 2 * state.CallAmount() > state.pot
    ensures DecideAction(state, draw) ==
      if EvaluatePreflop(state.yourCards) == Premium then Decision(Call, None) else Decision(Fold, None)
  {
  }

  /** The draw matters only for a playable hand with nothing to call preflop,
      and postflop for a free decision or a small bet with a weaker hand. */
  lemma DrawIndependence(state: HandState, d1: real, d2: real)
    requires !IsMixingRaise(state)
    requires state.phase != "preflop" ==>
      NoVisibleCards(state) ||
      (state.CallAmount() > 0 &&
       (2 * state.CallAmount() > state.pot || EvaluatePreflop(state.yourCards) in {Premium, Good}))
    ensures DecideAction(state, d1) == DecideAction(state, d2)
  {
  }
}
