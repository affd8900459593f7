/** The example bot's record keeping (examples/python/simple_bot.py, class
    `SimpleBot`): hands played and hands won. */
module Bot {
  import opened Wrappers
  import HttpClient

  /** One entry of a `hand_result` payload's `winners`. */
  datatype Winner = Winner(agentId: Option<string>, name: Option<string>)

  /** A `hand_result` payload. */
  datatype HandResult = HandResult(winners: Option<seq<Winner>>, pot: Option<int>)

  /** Some winner's `agent_id` equals ours (`None` equals `None`, as in Python). */
  function IsMyWin(winners: seq<Winner>, me: Option<string>): (won: bool)
    ensures won <==> exists i :: 0 <= i < |winners| && winners[i].agentId == me
  {
    if winners == [] then false
    else winners[0].agentId == me || IsMyWin(winners[1..], me)
  }

  class SimpleBot {
    const client: HttpClient.LaisVegas
    const tableId: string
    const buyIn: int
    var running: bool
    var handsPlayed: nat
    var handsWon: nat

    /** The record never shows more wins than hands. */
    ghost predicate Valid()
      reads this
    {
      handsWon <= handsPlayed
    }

    constructor (client: HttpClient.LaisVegas, tableId: string, buyIn: int)
      ensures Valid()
      ensures this.client == client && this.tableId == tableId && this.buyIn == buyIn
      ensures !running && handsPlayed == 0 && handsWon == 0
    {
      this.client := client;
      this.tableId := tableId;
      this.buyIn := buyIn;
      running := false;
      handsPlayed := 0;
      handsWon := 0;
    }

    /** `on_hand_result`: one more hand played, one more won when we are
        among the winners. */
    method OnHandResult(data: HandResult)
      requires Valid()
      modifies this
      ensures Valid()
      ensures handsPlayed == old(handsPlayed) + 1
      ensures handsWon == old(handsWon) + if IsMyWin(data.winners.GetOr([]), client.agentId) then 1 else 0
      ensures running == old(running)
    {
      handsPlayed := handsPlayed + 1;
      var winners := data.winners.GetOr([]);
      var myWin := IsMyWin(winners, client.agentId);
      if myWin {
        handsWon := handsWon + 1;
      }
    }
  }
}
