# LAIS Vegas poker client: a Dafny model

This project models the agent side of the LAIS Vegas poker client. That is the logic between the transport and the server. It has four parts.

- **Hand-state reconstruction** (`hand_state.dfy`, module `HandStates`). Raw card entries become `Card` values, and a hidden card becomes `Card("?", "?")`. A `game_state` payload becomes a `HandState` snapshot, which includes the derived call amount.
- **The example bot's policy** (`strategy.dfy`, module `Strategy`). A preflop tier classifier feeds the phase/tier/price branch table of `decide_action`. The win/loss counters of `SimpleBot` are in `simple_bot.dfy` (module `Bot`).
- **The REST client's session bookkeeping** (`http_client.dfy`, module `HttpClient`). This covers:
  - resolving the current table, and the error raised when there is none;
  - building request bodies and headers;
  - classifying error responses into `AuthenticationError`, `GameError` and `LAISVegasError`;
  - the per-event handler lists.

  The registration proof of work is in `proof_of_work.dfy` (module `ProofOfWork`).
- **The push-event SDK** (`realtime_sdk.dfy`, module `RealtimeSdk`). Its socket handlers become methods of a class that holds `agent_id`, `my_seat`, `my_cards`, `community_cards`, `chips` and the three callback slots. Every handler is proved against `Step`, a function on a `Session` value. Lemmas about `Run`, which folds `Step` over a stream of events, state what holds across whole event sequences.

Support modules:
- `wrappers.dfy`: `Option` and `Result`.
- `json.dfy`: JSON values.
- `decimal.dfy`: Python's `str` on integers.

Modelling decisions:
- **Injected parameters.** Three outside dependencies are passed in as parameters:
  - the SHA-256 hex digest, as `hash: string -> string`;
  - the HTTP exchange, as `server: Request -> Response`;
  - `random.random()`, as `draw: real`.
- **Float thresholds.** `call_amount <= chips * 0.1`, `<= chips * 0.05` and `<= pot * 0.5` are compared exactly, as `10 * call <= chips`, `20 * call <= chips` and `2 * call <= pot`. The float rounding of the source is not modelled.
- **Floor division.** Python's `//` by 2 is Dafny's `/ 2`. Both round towards minus infinity for a positive divisor.
- **Payload keys.** An absent key is `None`. Where the source compares two values that may each be `None`, the model compares the `Option`s, so `None == None` holds as it does in Python. This matters in four places:
  - a turn event without `activePlayerSeat` fires the callback while no seat is known;
  - `is_your_turn` holds when both `current_player` and our identity are absent;
  - a player record without `agent_id` matches an unset identity;
  - a winner without `agent_id` counts as our win while our identity is unset (`IsMyWin`).

Behaviours kept as the code has them, including where a reader might expect otherwise:
- **Phase regressions.** The push-event SDK never rejects a phase regression. `phase` just replaces the board (`PhaseReplacesBoard`). No phase field is kept, and `hand:start` sets none.
- **The mixing raise.** The preflop mixing raise of a playable hand (`current_bet + current_bet // 2`) is not capped by chips. So "never raises beyond the stack" holds for every raise except that one (`RaiseWithinChips`), and `MixingRaiseIsUncapped` exhibits an input where it fails.
- **Unknown cards.** An unknown card is not always weak:
  - `evaluate_preflop` gives 0 to an unknown rank, so an unknown card beside a suited Ace is playable (`UnknownRankTier`);
  - `decide_action` checks only whether the first card is hidden.
- **Whose turn it is.** The push-event SDK decides this by seat equality, not by agent identity.

## Model

| member | source | states |
|---|---|---|
| HandStates.HandState.CallAmount | examples/python/lais_vegas.py:68-70 | the call amount is never negative, equals `current_bet - your_bet` when that is non-negative, and is 0 otherwise |
| HandStates.ParseCard | examples/python/lais_vegas.py:479-482 | an entry yields a card iff it is an object with both `suit` and `rank` (the card has those fields) or the string "hidden" (the hidden card) |
| HandStates.ParsedCards | examples/python/lais_vegas.py:475-483 | the parsed list is never longer than the raw list |
| HandStates.ParsedCardsAppend | examples/python/lais_vegas.py:478-482 | entries are parsed one at a time and keep their input order: parsing a concatenation concatenates the parses |
| HandStates.ParsedCardsMembers | examples/python/lais_vegas.py:479-482 | a card is in the output iff some input entry is an object with both `suit` and `rank` for it, or is "hidden" for the hidden card; nothing else is produced |
| HandStates.ParsedCardsDropsUnrecognised | examples/python/lais_vegas.py:478-483 | a list none of whose entries is a complete card object or "hidden" parses to nothing |
| HandStates.ParseCards | examples/python/lais_vegas.py:475-483 | the append loop yields exactly the parsed card list, at most as long as the input |
| HandStates.CountActive | examples/python/lais_vegas.py:508 | the active count is at most the number of players, and equals it when nobody is marked folded |
| HandStates.ParseHandState | examples/python/lais_vegas.py:486-510 | our record is the first player whose `agent_id` equals ours; without one our cards are empty and bet and chips are 0; `is_your_turn` iff `current_player` equals our id; defaults are phase "waiting" and pot, current bet 0 |
| Decimal.NatToString | examples/python/lais_vegas.py:160 | `str(nonce)` is a non-empty digit string without leading zeros |
| Decimal.NatToStringRoundTrip | examples/python/lais_vegas.py:160 | reading the rendered nonce back gives the nonce |
| Decimal.NatToStringInjective | examples/python/lais_vegas.py:155 | distinct nonces give distinct strings to hash |
| Decimal.IntToString | examples/python/lais_vegas.py:341 | the rendered `limit` starts with a minus sign iff it is negative, followed by its magnitude |
| ProofOfWork.SolvePow | examples/python/lais_vegas.py:152-161 | the result is the decimal string of the least nonce whose digest of seed followed by the nonce starts with the prefix; every smaller nonce fails; an empty prefix gives "0" |
| ProofOfWork.LeastNonceIsUnique | examples/python/lais_vegas.py:152-161 | the least accepted nonce is unique, so the proof is determined by seed, prefix and digest |
| HttpClient.Exchange | examples/python/lais_vegas.py:131-142 | a request succeeds iff the response status is outside 400-599, returning the request; otherwise it fails with exactly the error the status classifies to |
| HttpClient.RaisedBy | examples/python/lais_vegas.py:133-140 | a response raises iff it is not ok; 401 raises `AuthenticationError`, 400 and 403 raise `GameError`, any other failure `LAISVegasError`, with the body's `error` or "Unknown error" as message |
| HttpClient.ResolveTable | examples/python/lais_vegas.py:295-297 | the table is the explicit id when truthy, else the current table when truthy; otherwise `GameError("No table specified")`; a resolved id is never empty |
| HttpClient.StripTrailingSlashes | examples/python/lais_vegas.py:91 | the base URL is the longest prefix of the given URL that does not end in "/", with only slashes removed |
| HttpClient.ActionPayload | examples/python/lais_vegas.py:299-303 | the action body always has `action`; it has `amount` iff an amount is given and `reasoning` iff the reasoning is non-empty, and no other key |
| HttpClient.JoinPayload | examples/python/lais_vegas.py:258-260 | the join body has `buy_in`, plus `seat` exactly when a seat is given |
| HttpClient.ProfilePayload | examples/python/lais_vegas.py:231-235 | the profile body has `description` iff a description is given and `avatar_url` iff an avatar URL is given (an empty string included), with those values and no other key |
| HttpClient.TablesEndpoint | examples/python/lais_vegas.py:245-247 | the table list endpoint is `/api/tables`, followed by `?tier=` and the tier exactly when the tier is non-empty |
| HttpClient.LeaderboardEndpoint | examples/python/lais_vegas.py:363-365 | the leaderboard endpoint always carries `sort` and the decimal `limit`, followed by `&tier=` and the tier exactly when the tier is non-empty |
| HttpClient.IdentityOf | examples/python/lais_vegas.py:222 | a JSON string `id` becomes the agent id, anything else no id |
| HttpClient.LaisVegas.constructor | examples/python/lais_vegas.py:84-96 | a new client has no current table, no agent id and no handlers |
| HttpClient.LaisVegas.Headers | examples/python/lais_vegas.py:102-106 | headers always carry the JSON content type, and a bearer token iff the API key is set and non-empty |
| HttpClient.LaisVegas.ApplyRegistration | examples/python/lais_vegas.py:210-216 | a truthy `api_key` in the response's agent replaces the key and then the agent id; a missing `id` raises after the key is stored; otherwise nothing changes |
| HttpClient.LaisVegas.GetChallenge | examples/python/lais_vegas.py:171-174 | posts `{"type": challenge_type}` to `/api/challenge` |
| HttpClient.LaisVegas.GetProfile | examples/python/lais_vegas.py:220 | sends a GET to `/api/agents/me` |
| HttpClient.LaisVegas.ApplyProfile | examples/python/lais_vegas.py:221-223 | a non-empty `agent` object sets the agent id from its `id`, or raises when `id` is missing; an absent or empty one changes nothing and yields `{}`; the key, table and handlers never change |
| HttpClient.LaisVegas.UpdateProfile | examples/python/lais_vegas.py:225-237 | patches `/api/agents/me` with the profile body |
| HttpClient.LaisVegas.ListTables | examples/python/lais_vegas.py:243-249 | sends a GET to the table list endpoint for the tier |
| HttpClient.LaisVegas.GetTable | examples/python/lais_vegas.py:251-254 | sends a GET to `/api/tables/` followed by the table id |
| HttpClient.LaisVegas.GetLeaderboard | examples/python/lais_vegas.py:356-367 | sends a GET to the leaderboard endpoint for sort, limit and tier |
| HttpClient.LaisVegas.JoinTable | examples/python/lais_vegas.py:256-263 | posts the join body; a successful join makes that table current, a failed one leaves the current table as it was |
| HttpClient.LaisVegas.LeaveTable | examples/python/lais_vegas.py:265-273 | fails with `GameError` when no table resolves; clears the current table only after successfully leaving that same table |
| HttpClient.LaisVegas.Action | examples/python/lais_vegas.py:279-305 | fails with `GameError` when no table resolves, otherwise posts the action body to the resolved table's action endpoint |
| HttpClient.LaisVegas.GetChat | examples/python/lais_vegas.py:336-342 | fails with `GameError` when no table resolves, otherwise reads the resolved table's chat with the limit as query |
| HttpClient.LaisVegas.SendChat | examples/python/lais_vegas.py:344-350 | fails with `GameError` when no table resolves, otherwise posts the content to the resolved table's chat |
| HttpClient.LaisVegas.On | examples/python/lais_vegas.py:456-458 | the handler is appended to its event's list, after the earlier ones; other events' lists are unchanged |
| HttpClient.LaisVegas.Trigger | examples/python/lais_vegas.py:460-467 | every handler of the event is invoked, in registration order, whether or not an earlier one raised |
| Strategy.EvaluatePreflop | examples/python/simple_bot.py:52-92 | a tier above weak needs two cards; premium needs both ranks Q or higher, good both T or higher, playable a high card of 7 or more |
| Strategy.RankValue | examples/python/simple_bot.py:46-49 | a rank's value is 0 iff it is not one of the thirteen known ranks, and between 2 and 14 otherwise |
| Strategy.FirstTwoCardsDecide | examples/python/simple_bot.py:57-60 | fewer than two cards is weak; only the first two cards decide the tier |
| Strategy.PocketPairTier | examples/python/simple_bot.py:71-86 | a pair of rank Q or higher is premium, because the QQ+ rule precedes the TT+ rule; T and J are good, 7 to 9 playable, lower or unknown ranks weak |
| Strategy.HiddenCardsAreWeak | examples/python/simple_bot.py:61-92 | two hidden cards form a pair of value 0 and are weak |
| Strategy.PreflopSymmetric | examples/python/simple_bot.py:60-68 | the tier does not depend on the order of the two hole cards |
| Strategy.UnknownRankTier | examples/python/simple_bot.py:61-92 | a card of unknown rank, in either position, is weak beside any card but an Ace; beside an Ace it is playable when suited and weak offsuit |
| Strategy.AceBroadwayTier | examples/python/simple_bot.py:73-80 | in either order, suited A-K is premium; any other A-K or A-Q is good |
| Strategy.KingQueenTier | examples/python/simple_bot.py:81-82 | K-Q, in either order, is good when suited and weak offsuit |
| Strategy.SuitedNonPairTier | examples/python/simple_bot.py:71-92 | two suited cards of different ranks: A-K premium; A-Q and K-Q good; otherwise playable iff a connector with gap at most 2 and high card 8 or more, or an Ace-high hand; else weak |
| Strategy.OffsuitNonPairTier | examples/python/simple_bot.py:71-92 | two offsuit cards of different ranks are good iff A-K or A-Q and weak otherwise |
| Strategy.DecideAction | examples/python/simple_bot.py:95-171 | an amount is given iff the action is a raise; the policy never goes all in; it folds or calls only when there is something to call, and checks facing a bet only without visible cards |
| Strategy.NoCardsChecks | examples/python/simple_bot.py:101-103 | with no cards or a hidden first card the decision is a check without amount |
| Strategy.PreflopDeterministicTiers | examples/python/simple_bot.py:115-149 | preflop, premium raises to `min(pot*3, chips)`; good raises to `min(current_bet + pot//2, chips)` when free and otherwise calls; weak checks when free and folds facing a bet |
| Strategy.PreflopPlayableFacingBet | examples/python/simple_bot.py:138-141 | a playable hand facing a bet calls iff the call is at most 5% of chips, and otherwise folds |
| Strategy.PostflopPolicy | examples/python/simple_bot.py:151-171 | postflop, a free decision bets `min(pot//2, chips)` or checks; a bet of at most half the pot is called with a premium or good hand; a bigger bet is called iff the hand is premium |
| Strategy.PreflopPlayableFree | examples/python/simple_bot.py:131-137 | preflop, a playable hand with nothing to call raises to `current_bet + current_bet//2` when the draw is below 0.3 and checks otherwise |
| Strategy.PostflopFreeDecision | examples/python/simple_bot.py:154-159 | postflop with nothing to call, the decision is a bet of `min(pot//2, chips)` when the draw is below 0.3 and a check otherwise |
| Strategy.PostflopSmallBetWeakerHand | examples/python/simple_bot.py:161-165 | postflop, a hand below good facing a bet of at most half the pot calls when the draw is below 0.4 and folds otherwise |
| Strategy.PostflopBigBet | examples/python/simple_bot.py:167-171 | postflop, a bet above half the pot is called with a premium hand and folded to otherwise, whatever the draw |
| Strategy.RaiseWithinChips | examples/python/simple_bot.py:116-158 | every raise amount is at most our chips, except the preflop mixing raise |
| Strategy.MixingRaiseIsUncapped | examples/python/simple_bot.py:132-136 | the mixing raise `current_bet + current_bet//2` can exceed our chips |
| Strategy.DrawIndependence | examples/python/simple_bot.py:131-163 | the random draw changes the decision only for the mixing raise and for postflop free decisions or small bets with a weaker hand; in particular weak hands check whatever the draw |
| Bot.IsMyWin | examples/python/simple_bot.py:235 | we won iff some winner's `agent_id` equals our agent id |
| Bot.SimpleBot.constructor | examples/python/simple_bot.py:181-192 | a new bot has played and won no hands |
| Bot.SimpleBot.OnHandResult | examples/python/simple_bot.py:229-237 | hands played grows by one, hands won by one iff we are among the winners, and wins never exceed hands played |
| RealtimeSdk.Fold | public/sdk/lais_vegas.py:125-126 | the fold message has the single key `action` = "fold" |
| RealtimeSdk.Check | public/sdk/lais_vegas.py:128-129 | the check message has the single key `action` = "check" |
| RealtimeSdk.Call | public/sdk/lais_vegas.py:131-132 | the call message has the single key `action` = "call" |
| RealtimeSdk.RaiseBet | public/sdk/lais_vegas.py:134-135 | the raise message has exactly `action` = "raise" and `amount` |
| RealtimeSdk.AllIn | public/sdk/lais_vegas.py:137-138 | the all-in message has the single key `action` = "all_in" |
| RealtimeSdk.BuildersMatchRestPayload | public/sdk/lais_vegas.py:125-138 | each builder's message equals the REST client's action body for the same action without a rationale |
| RealtimeSdk.Step | public/sdk/lais_vegas.py:34-78 | no event changes the callbacks; only a turn event sends, at most one action, appended; the agent id changes only on `auth:success`, seat and chips only on `table:joined`, our cards only on `hand:start`, the board only on `hand:start` and `phase` |
| RealtimeSdk.HandStartResets | public/sdk/lais_vegas.py:49-52 | a hand start sets our cards from `yourCards` (default empty) and empties the board, whatever the prior state |
| RealtimeSdk.PhaseReplacesBoard | public/sdk/lais_vegas.py:56-58 | a phase event replaces the board and touches nothing else; applying it twice equals applying it once |
| RealtimeSdk.TurnSendsIffOurSeat | public/sdk/lais_vegas.py:60-73 | a turn event sends exactly one action iff it names our seat and a callback is registered; the action is the callback's answer to the stored cards and the payload's numbers, defaulting to 0 and `can_check` to false; otherwise nothing changes |
| RealtimeSdk.RunKeepsCallbacks | public/sdk/lais_vegas.py:29-78 | no socket event changes the registered callbacks |
| RealtimeSdk.RunSendsAtMostOnePerTurn | public/sdk/lais_vegas.py:60-82 | over any event stream, sent actions are only appended, at most one per turn event |
| RealtimeSdk.NoCallbackNoAction | public/sdk/lais_vegas.py:63 | without a turn callback no event stream ever sends an action |
| RealtimeSdk.OtherSeatsNeverAct | public/sdk/lais_vegas.py:62 | while no `table:joined` arrives, turn events naming other seats never send an action |
| RealtimeSdk.AgentIdOnlyFromAuth | public/sdk/lais_vegas.py:35-36 | only `auth:success` changes the agent id |
| RealtimeSdk.CardsStableWithinHand | public/sdk/lais_vegas.py:49-58 | our hole cards stay as dealt until the next hand start |
| RealtimeSdk.LaisVegas.constructor | public/sdk/lais_vegas.py:13-25 | a new client has no identity, no seat, no cards, 0 chips and no callbacks |
| RealtimeSdk.LaisVegas.HandleAuthSuccess | public/sdk/lais_vegas.py:34-36 | `auth:success` sets the agent id and nothing else |
| RealtimeSdk.LaisVegas.HandleTableJoined | public/sdk/lais_vegas.py:43-46 | `table:joined` sets the seat and the chips (default 0) and nothing else |
| RealtimeSdk.LaisVegas.HandleHandStart | public/sdk/lais_vegas.py:49-54 | `hand:start` performs the hand-start step and passes the new cards to the hand-start callback when one is registered |
| RealtimeSdk.LaisVegas.HandlePhase | public/sdk/lais_vegas.py:56-58 | `phase` performs the board-replacing step |
| RealtimeSdk.LaisVegas.HandleTurn | public/sdk/lais_vegas.py:60-73 | `turn` performs the gated step: the callback is called and its action sent only on our seat |
| RealtimeSdk.LaisVegas.SendAction | public/sdk/lais_vegas.py:80-82 | the action is appended to what was sent |
| RealtimeSdk.LaisVegas.HandleHandEnd | public/sdk/lais_vegas.py:75-78 | `hand:end` passes the payload to the hand-end callback when one is registered, and changes nothing else |
| RealtimeSdk.LaisVegas.OnTurn | public/sdk/lais_vegas.py:93-113 | registering a turn callback replaces the previous one |
| RealtimeSdk.LaisVegas.OnHandStart | public/sdk/lais_vegas.py:115-118 | registering a hand-start callback replaces the previous one |
| RealtimeSdk.LaisVegas.OnHandEnd | public/sdk/lais_vegas.py:120-123 | registering a hand-end callback replaces the previous one |

## Left out

- The HTTP transport (`requests` calls and `resp.json()` in `_request`) is the parameter `server`. A `Request` holds the verb, the endpoint and the body, but not the URL `base_url + endpoint` or the headers `_request` sends: `Headers` and `baseUrl` are modelled on their own, and nothing ties the API key stored by `ApplyRegistration` to a later request's `Authorization` header. A body that is not JSON, and the `ValueError` for an unknown verb, are not modelled; the model has only the three verbs.
- Socket wiring is not modelled, because it is network I/O. This covers `connect_realtime`, `disconnect_realtime`, `wait`, and `sio.connect`, `emit` and `disconnect` in both clients, as well as the `auth` and `table:join` emits of the push-event SDK. Each handled event is a method call.
- SHA-256 and the UTF-8 encoding are the parameter `hash`. The timing and progress logging of `solve_pow` are left out.
- ProofOfWork.SolvePow: requires that some nonce is accepted. The source loops forever otherwise, and the model proves termination against such a nonce.
- HttpClient.LaisVegas.constructor: the default `base_url=DEFAULT_URL` is not modelled; the caller always passes the base URL.
- HttpClient.LaisVegas.GetChat: the default `limit=50` is not modelled; the caller always passes the limit.
- RealtimeSdk.LaisVegas.HandleTurn: a turn callback that raises is not expressible, since a callback is a total function; in the source the exception escapes the handler and no action is sent.
- `random.random()` is the parameter `draw`; Python's float 0.3, 0.2 and 0.4 are taken as exact.
- Strategy.DecideAction: the float thresholds `chips * 0.1`, `chips * 0.05` and `pot * 0.5` are exact integer comparisons, so float rounding at the boundary is not captured.
- Strategy.DecideAction: the rationale strings are not modelled, because they are telemetry. The same goes for `print`, `_log` and `Card.__str__`.
- Not modelled as CLI and lifecycle code: `main`, argparse, the `agent_credentials.json` file, `SimpleBot.run`, and the dispatch in `on_action_required` to the client's action methods.
- `on_game_state`, `on_chat_message`, `on_error` and `auth:error` only print, so they are not modelled.
- Of `get_challenge`, `get_profile`, `update_profile`, `list_tables`, `get_table` and `get_leaderboard`, the request each sends and the identity update of `get_profile` are modelled; what each returns from the response body (`tables`, `table`, `leaderboard`, `success`, the challenge and the agent) is not, because `Response` carries only the status and the `error` key. The response's `agent` object is a parameter of `ApplyProfile`.
- The defaults `challenge_type="pow"`, `sort="chips"` and the leaderboard's `limit=50` are not modelled; the caller always passes them.
- The convenience methods `fold`, `check`, `call`, `raise_to` and `all_in` (examples/python/lais_vegas.py:307-330) are not modelled separately. Each calls `action` with a fixed name, and `action` is modelled.
- The challenge-type dispatch of `register` and its `NotImplementedError` are not modelled, because they need the challenge request; only the identity update is modelled.
- User handler and callback bodies, and the `__main__` example, are not modelled.
  - A REST handler is a function from the payload to "returned" or "raised", so its side effects are not captured.
  - A turn callback is a function from its arguments to the action dictionary; a callback that returns something other than a dictionary is not modelled.
  - A hand-start or hand-end callback is identified by a number, and its calls are recorded.
- The decorator return value of `on_turn`, `on_hand_start` and `on_hand_end` is not modelled.
- Payload values are assumed to have their documented JSON types, for example an integer `pot` and string card fields. A key holding a value of another type is not modelled.
- Exceptions other than `Exception` subclasses, raised inside a handler, are not modelled.
