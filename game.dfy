/**
 * The game: a fixed list of players, an append-only log of executed moves,
 * the single execution primitive `PlayWith` and the round loop `Start`.
 */
module Games {
  import opened Primitives
  import opened Wrappers
  import opened Exceptions
  import opened UnitTypes
  import opened Units
  import opened Players
  import opened UnitFactory
  import opened GameActions
  import opened Buildings

  /** Whether a balance still has room for one money batch. */
  predicate CanPayBatch(balance: int)
  {
    IsInt32(balance + NEW_MONEY_BATCH)
  }

  /**
   * How many players in a row, from the first, can be paid a batch: a round of
   * payments stops at the first balance that would overflow.
   */
  function FirstUnfundable(balances: seq<int>): (k: nat)
    ensures k <= |balances|
    ensures forall j :: 0 <= j < k ==> CanPayBatch(balances[j])
    ensures k < |balances| ==> !CanPayBatch(balances[k])
  {
    if balances == [] || !CanPayBatch(balances[0]) then 0
    else 1 + FirstUnfundable(balances[1..])
  }

  lemma EqualPointwise(a: seq<int>, b: seq<int>)
    requires |a| == |b| && forall j :: 0 <= j < |a| ==> a[j] == b[j]
    ensures a == b
  {
  }

  /** `k * n`, added up one `n` at a time; it keeps products out of the loop proofs. */
  function Repeated(k: nat, n: nat): nat
  {
    if k == 0 then 0 else Repeated(k - 1, n) + n
  }

  lemma {:induction false} RepeatedIsProduct(k: nat, n: nat)
    ensures Repeated(k, n) == k * n
  {
    if k > 0 {
      RepeatedIsProduct(k - 1, n);
    }
  }

  /**
   * Each balance holds `rounds` batches more than in `initial`, and the
   * first `paid` ones one batch more again.
   */
  ghost predicate Credited(balances: seq<int>, initial: seq<int>, rounds: nat, paid: nat)
  {
    |balances| == |initial| &&
    forall j :: 0 <= j < |balances| ==>
      balances[j] == initial[j] + Repeated(if j < paid then rounds + 1 else rounds, NEW_MONEY_BATCH)
  }

  /** A round that pays the first `paid` balances moves them one batch ahead. */
  lemma PaidRound(initial: seq<int>, roundStart: seq<int>, after: seq<int>, rounds: nat, paid: nat)
    requires Credited(roundStart, initial, rounds, 0) && |after| == |roundStart|
    requires forall j :: 0 <= j < |after| ==> after[j] == roundStart[j] + if j < paid then NEW_MONEY_BATCH else 0
    ensures Credited(after, initial, rounds, paid)
  {
  }

  /** A round that paid every balance is one more full round. */
  lemma FullRound(balances: seq<int>, initial: seq<int>, rounds: nat)
    requires Credited(balances, initial, rounds, |balances|)
    ensures Credited(balances, initial, rounds + 1, 0)
  {
  }

  /** The log entries of `k` paid batches. */
  function Batches(k: nat): (r: seq<MoveState>)
    ensures |r| == k
  {
    seq(k, _ => MoveState.GiveMoneyBatch)
  }

  lemma BatchesAppend(log: seq<MoveState>, a: nat, b: nat)
    ensures log + Batches(a) + Batches(b) == log + Batches(a + b)
  {
  }

  /** Money batches never end a game. */
  lemma BatchesKeepEndGame(log: seq<MoveState>, k: nat)
    ensures MoveState.EndGame in log + Batches(k) <==> MoveState.EndGame in log
  {
  }

  /** A round's batches, logged after `rounds` full rounds, add up. */
  lemma LoggedStep(log: seq<MoveState>, before: seq<MoveState>, after: seq<MoveState>, rounds: nat, n: nat, paid: nat)
    requires before == log + Batches(Repeated(rounds, n)) && after == before + Batches(paid)
    ensures after == log + Batches(Repeated(rounds, n) + paid)
    ensures paid == n ==> after == log + Batches(Repeated(rounds + 1, n) + 0)
  {
    BatchesAppend(log, Repeated(rounds, n), paid);
  }

  /** `log` is `prefix` followed by money batches only. */
  ghost predicate ExtendsByBatches(log: seq<MoveState>, prefix: seq<MoveState>)
  {
    && |log| >= |prefix| && log[..|prefix|] == prefix
    && forall k :: |prefix| <= k < |log| ==> log[k] == MoveState.GiveMoneyBatch
  }

  lemma BatchesExtend(log: seq<MoveState>, moves: seq<MoveState>, k: nat)
    requires moves == log + Batches(k)
    ensures ExtendsByBatches(moves, log)
  {
  }

  function PlayerNotFoundMessage(index: nat, action: Action): string
  {
    "Failed to find player " + DecimalText(index) + (" when executing action " + action.Name())
  }

  /** The message names the index: refusals of two indices for one action differ. */
  lemma PlayerNotFoundNamesIndex(i: nat, j: nat, action: Action)
    requires PlayerNotFoundMessage(i, action) == PlayerNotFoundMessage(j, action)
    ensures i == j
  {
    var prefix := "Failed to find player ";
    var suffix := " when executing action " + action.Name();
    assert PlayerNotFoundMessage(i, action) == prefix + DecimalText(i) + suffix;
    assert PlayerNotFoundMessage(j, action) == prefix + DecimalText(j) + suffix;
    SameFrameSameMiddle(prefix, DecimalText(i), DecimalText(j), suffix);
    DecimalTextInjective(i, j);
  }

  function ActionNotExecutedMessage(action: Action, playerName: string): string
  {
    "Failed to execute action " + action.Name() + " for player " + playerName
  }

  class Game {
    const players: seq<Player>
    var moves: seq<MoveState>

    /** The game owns its players: no player appears twice. */
    ghost predicate Valid()
    {
      forall i, j :: 0 <= i < j < |players| ==> players[i] != players[j]
    }

    /** `Game::new`: takes ownership of the players; the log starts empty. */
    constructor (players: seq<Player>)
      requires forall i, j :: 0 <= i < j < |players| ==> players[i] != players[j]
      ensures Valid() && this.players == players && moves == []
    {
      this.players := players;
      moves := [];
    }

    function GetPlayers(): seq<Player> { players }

    /** Every player's balance, in player order. */
    ghost function Balances(): (bs: seq<int>)
      reads players
      ensures |bs| == |players|
      ensures forall i :: 0 <= i < |players| ==> bs[i] == players[i].wallet.money
    {
      seq(|players|, i requires 0 <= i < |players| reads players => players[i].wallet.money as int)
    }

    /** No wallet but the one of player `index` (if any) differs from the pre-state. */
    twostate predicate OthersUnchanged(index: int)
      reads players
    {
      forall j :: 0 <= j < |players| && j != index ==> players[j].wallet == old(players[j].wallet)
    }

    /** `check_moves_state`: whether some logged move is the end of the game. */
    predicate CheckMovesState()
      reads this
      ensures CheckMovesState() <==> exists k :: 0 <= k < |moves| && moves[k].EndGame?
    {
      MoveState.EndGame in moves
    }

    /** `update_moves_state`: appends one entry to the log. */
    method UpdateMovesState(moveState: MoveState)
      modifies this`moves
      ensures moves == old(moves) + [moveState]
    {
      moves := moves + [moveState];
    }

    /** `Game::give_money`: the bank's payment, recorded as `GiveMoneyBatch`. */
    method GiveMoney(player: Player) returns (r: Result<MoveState, RtsException>)
      modifies player
      ensures CanPayBatch(old(player.wallet.money)) ==>
        r == Ok(MoveState.GiveMoneyBatch) && player.wallet.money == old(player.wallet.money) + NEW_MONEY_BATCH
      ensures !CanPayBatch(old(player.wallet.money)) ==>
        r == Err(UpdatePlayerException(GIVE_MONEY_MESSAGE)) && player.wallet == old(player.wallet)
    {
      var paid := Buildings.GiveMoney(player);
      if paid.Ok? {
        r := Ok(MoveState.GiveMoneyBatch);
      } else {
        r := Err(paid.error);
      }
    }

    /** `Game::buy_unit`: the barrack's purchase, recorded as `BuyUnit` with the new unit. */
    method BuyUnit(t: UnitType, player: Player, id: Identifier) returns (r: Result<MoveState, RtsException>)
      modifies player
      ensures IsInt32(old(player.wallet.money) - GetCost(t)) ==>
        && r.Ok? && r.value.BuyUnit? && fresh(r.value.unit) && IsBaseUnit(r.value.unit, t, id)
        && player.wallet.money == old(player.wallet.money) - GetCost(t)
      ensures !IsInt32(old(player.wallet.money) - GetCost(t)) ==>
        r == Err(BuyUnitException(t, NotEnoughMoneyMessage(player.name))) && player.wallet == old(player.wallet)
    {
      var bought := Buildings.BuyUnit(t, player, id);
      if bought.Ok? {
        r := Ok(MoveState.BuyUnit(bought.value));
      } else {
        r := Err(bought.error);
      }
    }

    /**
     * `execute_action`. The source has no arm for `MoveUnit` (the game holds
     * no playground); here it is refused with an `ExecuteActionException`.
     */
    method ExecuteAction(player: Player, action: Action, id: Identifier) returns (r: Result<MoveState, RtsException>)
      modifies player
      ensures action.EndGame? ==> r == Ok(MoveState.EndGame) && player.wallet == old(player.wallet)
      ensures action.MoveUnit? ==>
        r == Err(ExecuteActionException(ActionNotExecutedMessage(action, player.name)))
        && player.wallet == old(player.wallet)
      ensures action.GiveMoneyBatch? && CanPayBatch(old(player.wallet.money)) ==>
        r == Ok(MoveState.GiveMoneyBatch) && player.wallet.money == old(player.wallet.money) + NEW_MONEY_BATCH
      ensures action.GiveMoneyBatch? && !CanPayBatch(old(player.wallet.money)) ==>
        r == Err(UpdatePlayerException(GIVE_MONEY_MESSAGE)) && player.wallet == old(player.wallet)
      ensures action.BuyUnit? && IsInt32(old(player.wallet.money) - GetCost(action.unitType)) ==>
        && r.Ok? && r.value.BuyUnit? && fresh(r.value.unit) && IsBaseUnit(r.value.unit, action.unitType, id)
        && player.wallet.money == old(player.wallet.money) - GetCost(action.unitType)
      ensures action.BuyUnit? && !IsInt32(old(player.wallet.money) - GetCost(action.unitType)) ==>
        r == Err(BuyUnitException(action.unitType, NotEnoughMoneyMessage(player.name)))
        && player.wallet == old(player.wallet)
    {
      match action
      case BuyUnit(t) =>
        r := BuyUnit(t, player, id);
      case GiveMoneyBatch =>
        r := GiveMoney(player);
      case EndGame =>
        r := Ok(MoveState.EndGame);
      case MoveUnit(_, _) =>
        r := Err(ExecuteActionException(ActionNotExecutedMessage(action, player.GetName())));
    }

    /**
     * `play_with`: checks the index, executes the action for that player and,
     * only when it succeeded, appends exactly one entry to the log. Nothing but
     * that player's balance and the log can change. `id` is the identifier a
     * unit bought by this call gets.
     */
    method PlayWith(index: nat, action: Action, id: Identifier) returns (r: Result<(), RtsException>)
      requires Valid()
      modifies this, players
      ensures OthersUnchanged(index)
      ensures index >= |players| ==>
        r == Err(ExecuteActionException(PlayerNotFoundMessage(index, action))) && moves == old(moves)
      ensures index < |players| && (action.EndGame? || action.MoveUnit?) ==>
        && players[index].wallet == old(players[index].wallet)
        && (action.EndGame? ==> r == Ok(()) && moves == old(moves) + [MoveState.EndGame])
        && (action.MoveUnit? ==>
              && r == Err(ExecuteActionException(ActionNotExecutedMessage(action, players[index].name)))
              && moves == old(moves))
      ensures index < |players| && action.GiveMoneyBatch? ==>
        if CanPayBatch(old(players[index].wallet.money)) then
          && r == Ok(())
          && moves == old(moves) + [MoveState.GiveMoneyBatch]
          && players[index].wallet.money == old(players[index].wallet.money) + NEW_MONEY_BATCH
        else
          && r == Err(UpdatePlayerException(GIVE_MONEY_MESSAGE))
          && moves == old(moves) && players[index].wallet == old(players[index].wallet)
      ensures index < |players| && action.BuyUnit? ==>
        if IsInt32(old(players[index].wallet.money) - GetCost(action.unitType)) then
          && r == Ok(())
          && |moves| == |old(moves)| + 1 && moves[..|old(moves)|] == old(moves)
          && moves[|old(moves)|].BuyUnit? && fresh(moves[|old(moves)|].unit)
          && IsBaseUnit(moves[|old(moves)|].unit, action.unitType, id)
          && players[index].wallet.money == old(players[index].wallet.money) - GetCost(action.unitType)
        else
          && r == Err(BuyUnitException(action.unitType, NotEnoughMoneyMessage(players[index].name)))
          && moves == old(moves) && players[index].wallet == old(players[index].wallet)
    {
      if index >= |players| {
        return Err(ExecuteActionException(PlayerNotFoundMessage(index, action)));
      }
      var player := players[index];
      var result := ExecuteAction(player, action, id);
      if result.Err? {
        return Err(result.error);
      }
      UpdateMovesState(result.value);
      r := Ok(());
    }

    /**
     * `execute_recurring_actions`: pays a batch to each player in order and
     * stops at the first payment that fails, returning its error; the players
     * after it are not paid.
     */
    method ExecuteRecurringActions() returns (r: Result<(), RtsException>)
      requires Valid()
      modifies this, players
      ensures moves == old(moves) + Batches(FirstUnfundable(old(Balances())))
      ensures forall j :: 0 <= j < |players| ==>
        players[j].wallet.money == old(players[j].wallet.money) +
          if j < FirstUnfundable(old(Balances())) then NEW_MONEY_BATCH else 0
      ensures FirstUnfundable(old(Balances())) == |players| ==> r == Ok(())
      ensures FirstUnfundable(old(Balances())) < |players| ==> r == Err(UpdatePlayerException(GIVE_MONEY_MESSAGE))
    {
      ghost var before := Balances();
      for i := 0 to |players|
        invariant forall j :: 0 <= j < i ==> CanPayBatch(before[j])
        invariant forall j :: 0 <= j < |players| ==>
          players[j].wallet.money == before[j] + if j < i then NEW_MONEY_BATCH else 0
        invariant moves == old(moves) + Batches(i)
      {
        // A money batch builds no unit, so the identifier is not used.
        var step := PlayWith(i, Action.GiveMoneyBatch, 0);
        if step.Err? {
          assert !CanPayBatch(before[i]);
          assert FirstUnfundable(before) == i;
          return step;
        }
        assert Batches(i + 1) == Batches(i) + [MoveState.GiveMoneyBatch];
      }
      return Ok(());
    }

    /**
     * The log holds `log` followed by one batch per payment: `rounds` full
     * rounds over all players, then `paid` more.
     */
    ghost predicate LoggedAfter(log: seq<MoveState>, rounds: nat, paid: nat)
      reads this
    {
      moves == log + Batches(Repeated(rounds, |players|) + paid)
    }

    /**
     * One pass of `start`'s loop: `execute_recurring_actions` after `rounds`
     * full rounds, logged after `log`. The first `paid` players get one batch
     * more, and `paid` batches are logged.
     */
    method PlayRound(ghost initial: seq<int>, ghost log: seq<MoveState>, ghost rounds: nat)
        returns (r: Result<(), RtsException>, ghost paid: nat)
      requires Valid() && Credited(Balances(), initial, rounds, 0) && LoggedAfter(log, rounds, 0)
      modifies this, players
      ensures paid == FirstUnfundable(old(Balances()))
      ensures moves == old(moves) + Batches(paid)
      ensures CheckMovesState() == old(CheckMovesState())
      ensures r.Ok? <==> paid == |players|
      ensures r.Ok? ==> Credited(Balances(), initial, rounds + 1, 0) && LoggedAfter(log, rounds + 1, 0)
      ensures r.Ok? && |players| > 0 ==>
        players[0].wallet.money == old(players[0].wallet.money) + NEW_MONEY_BATCH
      ensures r.Err? ==> r.error == UpdatePlayerException(GIVE_MONEY_MESSAGE)
      ensures r.Err? ==> paid < |players| && !CanPayBatch(players[paid].wallet.money)
      ensures r.Err? ==> Credited(Balances(), initial, rounds, paid) && LoggedAfter(log, rounds, paid)
      ensures r.Err? ==> ExtendsByBatches(moves, log)
    {
      ghost var roundStart := Balances();
      r := ExecuteRecurringActions();
      paid := FirstUnfundable(roundStart);
      PaidRound(initial, roundStart, Balances(), rounds, paid);
      LoggedStep(log, old(moves), moves, rounds, |players|, paid);
      if r.Ok? {
        FullRound(Balances(), initial, rounds);
      } else {
        BatchesExtend(log, moves, Repeated(rounds, |players|) + paid);
      }
      BatchesKeepEndGame(old(moves), paid);
    }

    /**
     * `start`: plays rounds of money batches until the log holds `EndGame`
     * after a round; a failing round ends the loop with its error. Rounds
     * only ever log batches, so the loop ends normally only when the game had
     * already ended before it started, after exactly one round; otherwise it
     * ends in the round where the first player in order whose balance cannot
     * take a batch is reached. The ghost `rounds` counts the full rounds paid
     * before the failing one and `unpaid` is the index of that player. With
     * no players and no `EndGame` the source loops forever, which is excluded.
     * The source sleeps between rounds, and other tasks may play (an `EndGame`
     * among them) while it does; the model has no such suspension point, so
     * this contract describes a `start` that nobody interrupts.
     */
    method Start() returns (r: Result<(), RtsException>, ghost rounds: nat, ghost unpaid: nat)
      requires Valid()
      requires |players| > 0 || CheckMovesState()
      modifies this, players
      ensures ExtendsByBatches(moves, old(moves))
      ensures r.Ok? <==> old(CheckMovesState()) && FirstUnfundable(old(Balances())) == |players|
      ensures r.Ok? ==> CheckMovesState()
      ensures r.Ok? ==> forall j :: 0 <= j < |players| ==>
        players[j].wallet.money == old(players[j].wallet.money) + NEW_MONEY_BATCH
      ensures r.Ok? ==> moves == old(moves) + Batches(|players|)
      ensures r.Err? ==> r.error == UpdatePlayerException(GIVE_MONEY_MESSAGE)
      ensures r.Err? ==> unpaid < |players| && !CanPayBatch(players[unpaid].wallet.money)
      ensures r.Err? ==> Credited(Balances(), old(Balances()), rounds, unpaid)
      ensures r.Err? ==> LoggedAfter(old(moves), rounds, unpaid)
    {
      ghost var initial := Balances();
      rounds := 0;
      while true
        invariant LoggedAfter(old(moves), rounds, 0)
        invariant CheckMovesState() == old(CheckMovesState())
        invariant old(CheckMovesState()) ==> rounds == 0 && moves == old(moves)
        invariant Credited(Balances(), initial, rounds, 0)
        decreases if |players| == 0 then 0 else I32_MAX - players[0].wallet.money
      {
        if old(CheckMovesState()) {
          EqualPointwise(Balances(), initial);
        }
        r, unpaid := PlayRound(initial, old(moves), rounds);
        if r.Err? {
          return;
        }
        if CheckMovesState() {
          BatchesExtend(old(moves), moves, |players|);
          return;
        }
        rounds := rounds + 1;
      }
    }
  }

  /** The `should_play_with_ai` test: Tigran, with 100 coins, buys a Classic unit. */
  method ShouldPlayWithAi() returns (r: Result<(), RtsException>, balance: int, logged: nat)
    ensures r == Ok(()) && balance == 80 && logged == 1
  {
    var tigran := new Player("Tigran");
    var _ := tigran.UpdateMoney(100);
    var emma := new Player("Emma");
    var game := new Game([tigran, emma]);
    r := game.PlayWith(0, Action.BuyUnit(Classic), 1);
    balance := tigran.GetMoney();
    logged := |game.moves|;
  }

  /** The `should_not_find_user` test: index 1 in a one-player game is refused. */
  method ShouldNotFindUser() returns (r: Result<(), RtsException>, logged: nat)
    ensures r == Err(ExecuteActionException(PlayerNotFoundMessage(1, Action.BuyUnit(Classic))))
    ensures logged == 0
  {
    var tigran := new Player("Tigran");
    var game := new Game([tigran]);
    r := game.PlayWith(1, Action.BuyUnit(Classic), 1);
    logged := |game.moves|;
  }

  /** Emma, with no coins, may still buy: the wallet goes to -20. */
  method EmptyWalletStillBuys() returns (r: Result<(), RtsException>, balance: int)
    ensures r == Ok(()) && balance == -20
  {
    var tigran := new Player("Tigran");
    var emma := new Player("Emma");
    var game := new Game([tigran, emma]);
    r := game.PlayWith(1, Action.BuyUnit(Classic), 1);
    balance := emma.GetMoney();
  }

  /** A one-player game, Tigran with 100 coins, whose log already holds `EndGame`. */
  method EndedGame() returns (game: Game, tigran: Player)
    ensures fresh(game) && fresh(tigran)
    ensures game.Valid() && game.players == [tigran]
    ensures tigran.wallet.money == 100 && game.moves == [MoveState.EndGame]
  {
    tigran := new Player("Tigran");
    var _ := tigran.UpdateMoney(100);
    game := new Game([tigran]);
    var _ := game.PlayWith(0, Action.EndGame, 0);
  }

  /** Once `EndGame` is logged, `start` plays one round and returns. */
  method StartAfterEndGame() returns (r: Result<(), RtsException>, balance: int, logged: nat)
    ensures r == Ok(()) && balance == 200 && logged == 2
  {
    var game, tigran := EndedGame();
    assert game.moves[0].EndGame?;
    ghost var before := game.Balances();
    assert FirstUnfundable(before) == 1;
    ghost var rounds: nat, unpaid: nat;
    r, rounds, unpaid := game.Start();
    assert game.Balances()[0] == 200;
    assert r.value == ();
    balance := tigran.GetMoney();
    logged := |game.moves|;
  }
}
