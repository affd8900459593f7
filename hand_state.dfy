/** The client's view of one poker hand (examples/python/lais_vegas.py):
    cards, the hand-state snapshot, and its reconstruction from a
    `game_state` payload sent by the server. */
module HandStates {
  import opened Wrappers

  /** A card as the server names it: suit and rank strings. */
  datatype Card = Card(suit: string, rank: string)

  /** The card that stands for a hole card the server keeps hidden. */
  const Hidden: Card := Card("?", "?")

  /** One entry of a card list in a payload: a JSON object (its string
      fields), a JSON string, or any other JSON value. */
  datatype RawCard = CardObject(fields: map<string, string>) | Text(text: string) | OtherValue

  /** One player record of `current_hand.players`; `None` is an absent key. */
  datatype PlayerRecord = PlayerRecord(
    agentId: Option<string>,
    cards: Option<seq<RawCard>>,
    bet: Option<int>,
    chips: Option<int>,
    isFolded: Option<bool>)

  /** The `current_hand` object of a `game_state` payload. */
  datatype HandPayload = HandPayload(
    phase: Option<string>,
    pot: Option<int>,
    communityCards: Option<seq<RawCard>>,
    currentBet: Option<int>,
    players: Option<seq<PlayerRecord>>)

  /** A `game_state` / `action_required` payload. */
  datatype GameData = GameData(currentHand: Option<HandPayload>, currentPlayer: Option<string>)

  const EmptyHand: HandPayload := HandPayload(None, None, None, None, None)

  /** The snapshot handed to the decision policy. */
  datatype HandState = HandState(
    phase: string,
    pot: int,
    communityCards: seq<Card>,
    yourCards: seq<Card>,
    yourBet: int,
    currentBet: int,
    yourChips: int,
    isYourTurn: bool,
    activePlayers: nat,
    players: seq<PlayerRecord>)
  {
    /** Chips still needed to match the current bet; never negative. */
    function CallAmount(): (call: nat)
      ensures call >= currentBet - yourBet
      ensures currentBet >= yourBet ==> call == currentBet - yourBet
      ensures currentBet < yourBet ==> call == 0
    {
      if currentBet - yourBet > 0 then currentBet - yourBet else 0
    }
  }

  /** What one raw entry contributes: a card for an object with both `suit`
      and `rank`, the hidden card for the string "hidden", nothing otherwise. */
  function ParseCard(raw: RawCard): (c: Option<Card>)
    ensures c.Some? <==> (raw.CardObject? && "suit" in raw.fields && "rank" in raw.fields) || raw == Text("hidden")
    ensures c.Some? && raw.CardObject? ==> c.value == Card(raw.fields["suit"], raw.fields["rank"])
    ensures c.Some? && !raw.CardObject? ==> c.value == Hidden
  {
    match raw
    case CardObject(fields) =>
      if "suit" in fields && "rank" in fields then Some(Card(fields["suit"], fields["rank"])) else None
    case Text(text) => if text == "hidden" then Some(Hidden) else None
    case OtherValue => None
  }

  function Emitted(c: Option<Card>): seq<Card> {
    if c.Some? then [c.value] else []
  }

  /** The cards a raw card list denotes, in input order. */
  function ParsedCards(raw: seq<RawCard>): (cards: seq<Card>)
    ensures |cards| <= |raw|
  {
    if raw == [] then [] else Emitted(ParseCard(raw[0])) + ParsedCards(raw[1..])
  }

  /** Parsing a concatenation parses each part in turn: entries are handled
      one at a time and keep their order. */
  lemma {:induction false} ParsedCardsAppend(a: seq<RawCard>, b: seq<RawCard>)
    ensures ParsedCards(a + b) == ParsedCards(a) + ParsedCards(b)
  {
    if a == [] {
      assert a + b == b;
    } else {
      assert (a + b)[0] == a[0];
      assert (a + b)[1..] == a[1..] + b;
      ParsedCardsAppend(a[1..], b);
    }
  }

  /** A card is in the output exactly when some input entry parses to it:
      nothing is invented, in particular no hidden card is ever guessed. */
  lemma {:induction false} ParsedCardsMembers(raw: seq<RawCard>, c: Card)
    ensures c in ParsedCards(raw) <==> exists i :: 0 <= i < |raw| && ParseCard(raw[i]) == Some(c)
  {
    if raw != [] {
      ParsedCardsMembers(raw[1..], c);
      if c in ParsedCards(raw[1..]) {
        var i :| 0 <= i < |raw[1..]| && ParseCard(raw[1..][i]) == Some(c);
        assert ParseCard(raw[i + 1]) == Some(c);
      }
      if exists i :: 0 <= i < |raw| && ParseCard(raw[i]) == Some(c) {
        var i :| 0 <= i < |raw| && ParseCard(raw[i]) == Some(c);
        if i > 0 {
          assert ParseCard(raw[1..][i - 1]) == Some(c);
        }
      }
    }
  }

  /** A list none of whose entries is a complete card object or the string
      "hidden" parses to nothing. */
  lemma {:induction false} ParsedCardsDropsUnrecognised(raw: seq<RawCard>)
    requires forall i :: 0 <= i < |raw| ==> ParseCard(raw[i]).None?
    ensures ParsedCards(raw) == []
  {
    if raw != [] {
      assert ParseCard(raw[0]).None?;
      ParsedCardsDropsUnrecognised(raw[1..]);
    }
  }

  /** `parse_cards`: builds the card list by appending entry by entry. */
  method ParseCards(raw: seq<RawCard>) returns (cards: seq<Card>)
    ensures cards == ParsedCards(raw)
    ensures |cards| <= |raw|
  {
    cards := [];
    for i := 0 to |raw|
      invariant cards == ParsedCards(raw[..i])
    {
      var c := raw[i];
      assert raw[..i + 1] == raw[..i] + [c];
      assert ParsedCards([c]) == Emitted(ParseCard(c)) by {
        assert [c][1..] == [];
      }
      ParsedCardsAppend(raw[..i], [c]);
      if c.CardObject? && "suit" in c.fields && "rank" in c.fields {
        cards := cards + [Card(c.fields["suit"], c.fields["rank"])];
      } else if c == Text("hidden") {
        cards := cards + [Hidden];
      }
    }
    assert raw[..|raw|] == raw;
  }

  /** Players not marked `is_folded`; at most the number of players, and all
      of them when nobody has folded. */
  function CountActive(players: seq<PlayerRecord>): (n: nat)
    ensures n <= |players|
    ensures (forall i :: 0 <= i < |players| ==> players[i].isFolded != Some(true)) ==> n == |players|
  {
    if players == [] then 0
    else (if players[0].isFolded != Some(true) then 1 else 0) + CountActive(players[1..])
  }

  function HandOf(data: GameData): HandPayload {
    data.currentHand.GetOr(EmptyHand)
  }

  function PlayersOf(data: GameData): seq<PlayerRecord> {
    HandOf(data).players.GetOr([])
  }

  /** `k` is the first player whose `agent_id` equals ours. */
  predicate IsFirstMatch(players: seq<PlayerRecord>, agentId: Option<string>, k: int) {
    0 <= k < |players| && players[k].agentId == agentId &&
    forall j :: 0 <= j < k ==> players[j].agentId != agentId
  }

  /** `parse_hand_state`: our own record is the first whose `agent_id` equals
      ours (an absent `agent_id` matches an absent identity, as `None == None`
      does); without one our cards are empty and our bet and chips are 0. */
  method ParseHandState(data: GameData, agentId: Option<string>) returns (state: HandState)
    ensures state.phase == HandOf(data).phase.GetOr("waiting")
    ensures state.pot == HandOf(data).pot.GetOr(0)
    ensures state.currentBet == HandOf(data).currentBet.GetOr(0)
    ensures state.communityCards == ParsedCards(HandOf(data).communityCards.GetOr([]))
    ensures state.players == PlayersOf(data)
    ensures state.isYourTurn <==> data.currentPlayer == agentId
    ensures state.activePlayers == CountActive(PlayersOf(data)) <= |PlayersOf(data)|
    ensures forall k :: IsFirstMatch(PlayersOf(data), agentId, k) ==>
      var p := PlayersOf(data)[k];
      state.yourCards == ParsedCards(p.cards.GetOr([])) &&
      state.yourBet == p.bet.GetOr(0) && state.yourChips == p.chips.GetOr(0)
    ensures (forall j :: 0 <= j < |PlayersOf(data)| ==> PlayersOf(data)[j].agentId != agentId) ==>
      state.yourCards == [] && state.yourBet == 0 && state.yourChips == 0
  {
    var hand := data.currentHand.GetOr(EmptyHand);
    var players := hand.players.GetOr([]);
    var yourPlayer: Option<PlayerRecord> := None;
    ghost var at := |players|;
    for i := 0 to |players|
      invariant yourPlayer.None? && at == |players|
      invariant forall j :: 0 <= j < i ==> players[j].agentId != agentId
    {
      if players[i].agentId == agentId {
        yourPlayer := Some(players[i]);
        at := i;
        break;
      }
    }
    assert yourPlayer.Some? ==> IsFirstMatch(players, agentId, at) && yourPlayer.value == players[at];
    assert forall k :: IsFirstMatch(players, agentId, k) ==> yourPlayer.Some? && k == at;

    var community := ParseCards(hand.communityCards.GetOr([]));
    var yourCards := ParseCards(if yourPlayer.Some? then yourPlayer.value.cards.GetOr([]) else []);
    state := HandState(
      phase := hand.phase.GetOr("waiting"),
      pot := hand.pot.GetOr(0),
      communityCards := community,
      yourCards := yourCards,
      yourBet := if yourPlayer.Some? then yourPlayer.value.bet.GetOr(0) else 0,
      currentBet := hand.currentBet.GetOr(0),
      yourChips := if yourPlayer.Some? then yourPlayer.value.chips.GetOr(0) else 0,
      isYourTurn := data.currentPlayer == agentId,
      activePlayers := CountActive(players),
      players := players);
  }
}
