/** The push-event SDK of public/sdk/lais_vegas.py (class `LAISVegas`): the
    fields its socket handlers update, the gate on the turn event, the
    callback slots and the action builders. Each socket event is a method
    call; what the SDK emits as an action is recorded in `sent`, and each
    call of a user callback in `invoked`. */
module RealtimeSdk {
  import opened Wrappers
  import opened Json
  import HttpClient

  /** An action message, as the builders return it. */
  type Action = map<string, Value>

  function Fold(): (a: Action)
    ensures a.Keys == {"action"} && a["action"] == Str("fold")
  {
    map["action" := Str("fold")]
  }

  function Check(): (a: Action)
    ensures a.Keys == {"action"} && a["action"] == Str("check")
  {
    map["action" := Str("check")]
  }

  function Call(): (a: Action)
    ensures a.Keys == {"action"} && a["action"] == Str("call")
  {
    map["action" := Str("call")]
  }

  function RaiseBet(amount: int): (a: Action)
    ensures a.Keys == {"action", "amount"} && a["action"] == Str("raise") && a["amount"] == Int(amount)
  {
    map["action" := Str("raise"), "amount" := Int(amount)]
  }

  function AllIn(): (a: Action)
    ensures a.Keys == {"action"} && a["action"] == Str("all_in")
  {
    map["action" := Str("all_in")]
  }

  /** The builders produce the same messages as the REST client's `action`
      payload for the same action without a rationale. */
  lemma BuildersMatchRestPayload(amount: int)
    ensures Fold() == HttpClient.ActionPayload("fold", None, None)
    ensures Check() == HttpClient.ActionPayload("check", None, None)
    ensures Call() == HttpClient.ActionPayload("call", None, None)
    ensures RaiseBet(amount) == HttpClient.ActionPayload("raise", Some(amount), None)
    ensures AllIn() == HttpClient.ActionPayload("all_in", None, None)
  {
  }

  /** The keyword arguments the turn callback receives. */
  datatype TurnArgs = TurnArgs(
    myCards: seq<string>,
    communityCards: seq<string>,
    pot: int,
    currentBet: int,
    yourBet: int,
    yourChips: int,
    canCheck: bool)

  /** The user's turn callback, seen through the action it returns. */
  type TurnCallback = TurnArgs -> Action

  /** A user's hand-start or hand-end callback; what it does is outside the
      SDK, so it is identified by a number and its calls are recorded. */
  type CallbackId = nat

  /** A `turn` payload; `None` is an absent key. */
  datatype TurnPayload = TurnPayload(
    activePlayerSeat: Option<int>,
    pot: Option<int>,
    currentBet: Option<int>,
    yourBet: Option<int>,
    yourChips: Option<int>,
    canCheck: Option<bool>)

  /** The socket events the SDK handles, with the keys it reads. */
  datatype Event =
    | AuthSuccess(agentId: Option<string>)
    | TableJoined(seat: Option<int>, chips: Option<int>)
    | HandStart(yourCards: Option<seq<string>>)
    | PhaseChange(communityCards: Option<seq<string>>)
    | Turn(payload: TurnPayload)
    | HandEnd(data: Value)

  datatype Invocation =
    | TurnCallbackCalled(args: TurnArgs)
    | HandStartCallbackCalled(callback: CallbackId, cards: seq<string>)
    | HandEndCallbackCalled(callback: CallbackId, data: Value)

  /** Everything the SDK object holds, as one value. */
  datatype Session = Session(
    agentId: Option<string>,
    mySeat: Option<int>,
    myCards: seq<string>,
    communityCards: seq<string>,
    chips: int,
    onTurn: Option<TurnCallback>,
    onHandStart: Option<CallbackId>,
    onHandEnd: Option<CallbackId>,
    invoked: seq<Invocation>,
    sent: seq<Action>)

  /** The turn event names our seat (an absent seat equals an unset one). */
  predicate IsOurTurn(s: Session, p: TurnPayload) {
    p.activePlayerSeat == s.mySeat
  }

  /** The callback's arguments: our stored cards, the payload's numbers
      (0 when absent) and `canCheck` (false when absent). */
  function ArgsOf(s: Session, p: TurnPayload): TurnArgs {
    TurnArgs(s.myCards, s.communityCards, p.pot.GetOr(0), p.currentBet.GetOr(0),
             p.yourBet.GetOr(0), p.yourChips.GetOr(0), p.canCheck.GetOr(false))
  }

  /** The effect of one socket event. No event touches the callback slots;
      only a turn event sends, and at most one action; each field changes
      only on the event that owns it. */
  function Step(s: Session, e: Event): (t: Session)
    ensures t.onTurn == s.onTurn && t.onHandStart == s.onHandStart && t.onHandEnd == s.onHandEnd
    ensures s.sent <= t.sent && |t.sent| <= |s.sent| + 1
    ensures !e.Turn? ==> t.sent == s.sent
    ensures !e.AuthSuccess? ==> t.agentId == s.agentId
    ensures !e.TableJoined? ==> t.mySeat == s.mySeat && t.chips == s.chips
    ensures !e.HandStart? ==> t.myCards == s.myCards
    ensures !e.HandStart? && !e.PhaseChange? ==> t.communityCards == s.communityCards
  {
    match e
    case AuthSuccess(id) => s.(agentId := id)
    case TableJoined(seat, chips) => s.(mySeat := seat, chips := chips.GetOr(0))
    case HandStart(cards) =>
      var mine := cards.GetOr([]);
      var t := s.(myCards := mine, communityCards := []);
      if s.onHandStart.Some? then t.(invoked := t.invoked + [HandStartCallbackCalled(s.onHandStart.value, mine)])
      else t
    case PhaseChange(cards) => s.(communityCards := cards.GetOr([]))
    case Turn(p) =>
      if IsOurTurn(s, p) && s.onTurn.Some? then
        var args := ArgsOf(s, p);
        s.(invoked := s.invoked + [TurnCallbackCalled(args)], sent := s.sent + [s.onTurn.value(args)])
      else s
    case HandEnd(data) =>
      if s.onHandEnd.Some? then s.(invoked := s.invoked + [HandEndCallbackCalled(s.onHandEnd.value, data)])
      else s
  }

  /** The effect of a stream of events, delivered one at a time in order. */
  function Run(s: Session, events: seq<Event>): Session
    decreases |events|
  {
    if events == [] then s else Run(Step(s, events[0]), events[1..])
  }

  /** A hand start sets our cards and empties the board, whatever came before. */
  lemma HandStartResets(s: Session, cards: Option<seq<string>>)
    ensures Step(s, HandStart(cards)).myCards == cards.GetOr([])
    ensures Step(s, HandStart(cards)).communityCards == []
    ensures Step(s, HandStart(cards)).sent == s.sent
  {
  }

  /** A phase event replaces the board and nothing else, so applying it twice
      is applying it once. No phase order is enforced. */
  lemma PhaseReplacesBoard(s: Session, cards: Option<seq<string>>)
    ensures Step(s, PhaseChange(cards)) == s.(communityCards := cards.GetOr([]))
    ensures Step(Step(s, PhaseChange(cards)), PhaseChange(cards)) == Step(s, PhaseChange(cards))
  {
  }

  /** A turn event sends one action, the callback's answer to the stored
      cards, exactly when it names our seat and a callback is registered;
      otherwise it changes nothing. */
  lemma TurnSendsIffOurSeat(s: Session, p: TurnPayload)
    ensures var t := Step(s, Turn(p));
      (|t.sent| == |s.sent| + 1 <==> IsOurTurn(s, p) && s.onTurn.Some?) &&
      (|t.sent| == |s.sent| + 1 ==>
         t.sent[|s.sent|] == s.onTurn.value(TurnArgs(s.myCards, s.communityCards, p.pot.GetOr(0),
           p.currentBet.GetOr(0), p.yourBet.GetOr(0), p.yourChips.GetOr(0), p.canCheck.GetOr(false)))) &&
      (!(IsOurTurn(s, p) && s.onTurn.Some?) ==> t == s)
  {
  }

  predicate IsTurn(e: Event) { e.Turn? }

  function CountTurns(events: seq<Event>): (n: nat)
    ensures n <= |events|
  {
    if events == [] then 0 else (if IsTurn(events[0]) then 1 else 0) + CountTurns(events[1..])
  }

  /** Events never change the registered callbacks. */
  lemma {:induction false} RunKeepsCallbacks(s: Session, events: seq<Event>)
    ensures Run(s, events).onTurn == s.onTurn
    ensures Run(s, events).onHandStart == s.onHandStart
    ensures Run(s, events).onHandEnd == s.onHandEnd
    decreases |events|
  {
    if events != [] {
      RunKeepsCallbacks(Step(s, events[0]), events[1..]);
    }
  }

  /** Sent actions are only ever appended, at most one per turn event. */
  lemma {:induction false} RunSendsAtMostOnePerTurn(s: Session, events: seq<Event>)
    ensures s.sent <= Run(s, events).sent
    ensures |Run(s, events).sent| <= |s.sent| + CountTurns(events)
    decreases |events|
  {
    if events != [] {
      var t := Step(s, events[0]);
      assert s.sent <= t.sent;
      RunSendsAtMostOnePerTurn(t, events[1..]);
    }
  }

  /** Without a turn callback nothing is ever sent. */
  lemma {:induction false} NoCallbackNoAction(s: Session, events: seq<Event>)
    requires s.onTurn.None?
    ensures Run(s, events).sent == s.sent
    decreases |events|
  {
    if events != [] {
      NoCallbackNoAction(Step(s, events[0]), events[1..]);
    }
  }

  /** While our seat does not change, turn events that name other seats
      never make the SDK act. */
  lemma {:induction false} OtherSeatsNeverAct(s: Session, events: seq<Event>)
    requires forall i :: 0 <= i < |events| ==> !events[i].TableJoined?
    requires forall i :: 0 <= i < |events| && events[i].Turn? ==> events[i].payload.activePlayerSeat != s.mySeat
    ensures Run(s, events).sent == s.sent
    ensures Run(s, events).mySeat == s.mySeat
    decreases |events|
  {
    if events != [] {
      assert !events[0].TableJoined?;
      assert events[0].Turn? ==> events[0].payload.activePlayerSeat != s.mySeat;
      OtherSeatsNeverAct(Step(s, events[0]), events[1..]);
    }
  }

  /** Only `auth:success` sets the agent id. */
  lemma {:induction false} AgentIdOnlyFromAuth(s: Session, events: seq<Event>)
    requires forall i :: 0 <= i < |events| ==> !events[i].AuthSuccess?
    ensures Run(s, events).agentId == s.agentId
    decreases |events|
  {
    if events != [] {
      assert !events[0].AuthSuccess?;
      AgentIdOnlyFromAuth(Step(s, events[0]), events[1..]);
    }
  }

  /** Our hole cards stay as dealt until the next hand start. */
  lemma {:induction false} CardsStableWithinHand(s: Session, events: seq<Event>)
    requires forall i :: 0 <= i < |events| ==> !events[i].HandStart?
    ensures Run(s, events).myCards == s.myCards
    decreases |events|
  {
    if events != [] {
      assert !events[0].HandStart?;
      CardsStableWithinHand(Step(s, events[0]), events[1..]);
    }
  }

  class LaisVegas {
    const apiKey: string
    var agentId: Option<string>
    var mySeat: Option<int>
    var myCards: seq<string>
    var communityCards: seq<string>
    var chips: int
    var onTurnCallback: Option<TurnCallback>
    var onHandStartCallback: Option<CallbackId>
    var onHandEndCallback: Option<CallbackId>
    var invoked: seq<Invocation>
    var sent: seq<Action>

    function State(): Session
      reads this
    {
      Session(agentId, mySeat, myCards, communityCards, chips,
              onTurnCallback, onHandStartCallback, onHandEndCallback, invoked, sent)
    }

    constructor (apiKey: string)
      ensures this.apiKey == apiKey
      ensures State() == Session(None, None, [], [], 0, None, None, None, [], [])
    {
      this.apiKey := apiKey;
      agentId := None;
      mySeat := None;
      myCards := [];
      communityCards := [];
      chips := 0;
      onTurnCallback := None;
      onHandStartCallback := None;
      onHandEndCallback := None;
      invoked := [];
      sent := [];
    }

    /** `auth:success`. */
    method HandleAuthSuccess(agentIdField: Option<string>)
      modifies this
      ensures State() == Step(old(State()), AuthSuccess(agentIdField))
    {
      agentId := agentIdField;
    }

    /** `table:joined`. */
    method HandleTableJoined(seat: Option<int>, chipsField: Option<int>)
      modifies this
      ensures State() == Step(old(State()), TableJoined(seat, chipsField))
    {
      mySeat := seat;
      chips := chipsField.GetOr(0);
    }

    /** `hand:start`. */
    method HandleHandStart(yourCards: Option<seq<string>>)
      modifies this
      ensures State() == Step(old(State()), HandStart(yourCards))
    {
      myCards := yourCards.GetOr([]);
      communityCards := [];
      if onHandStartCallback.Some? {
        invoked := invoked + [HandStartCallbackCalled(onHandStartCallback.value, myCards)];
      }
    }

    /** `phase`. */
    method HandlePhase(cards: Option<seq<string>>)
      modifies this
      ensures State() == Step(old(State()), PhaseChange(cards))
    {
      communityCards := cards.GetOr([]);
    }

    /** `turn`: asks the callback and sends its action only on our seat. */
    method HandleTurn(p: TurnPayload)
      modifies this
      ensures State() == Step(old(State()), Turn(p))
    {
      if p.activePlayerSeat == mySeat {
        if onTurnCallback.Some? {
          var args := TurnArgs(myCards, communityCards, p.pot.GetOr(0), p.currentBet.GetOr(0),
                               p.yourBet.GetOr(0), p.yourChips.GetOr(0), p.canCheck.GetOr(false));
          var action := onTurnCallback.value(args);
          invoked := invoked + [TurnCallbackCalled(args)];
          SendAction(action);
        }
      }
    }

    /** `_send_action`: emits the action. */
    method SendAction(action: Action)
      modifies this
      ensures State() == old(State()).(sent := old(sent) + [action])
    {
      sent := sent + [action];
    }

    /** `hand:end`. */
    method HandleHandEnd(data: Value)
      modifies this
      ensures State() == Step(old(State()), HandEnd(data))
    {
      if onHandEndCallback.Some? {
        invoked := invoked + [HandEndCallbackCalled(onHandEndCallback.value, data)];
      }
    }

    /** `on_turn`: the new callback replaces any earlier one. */
    method OnTurn(callback: TurnCallback)
      modifies this
      ensures State() == old(State()).(onTurn := Some(callback))
    {
      onTurnCallback := Some(callback);
    }

    /** `on_hand_start`: the new callback replaces any earlier one. */
    method OnHandStart(callback: CallbackId)
      modifies this
      ensures State() == old(State()).(onHandStart := Some(callback))
    {
      onHandStartCallback := Some(callback);
    }

    /** `on_hand_end`: the new callback replaces any earlier one. */
    method OnHandEnd(callback: CallbackId)
      modifies this
      ensures State() == old(State()).(onHandEnd := Some(callback))
    {
      onHandEndCallback := Some(callback);
    }
  }
}
