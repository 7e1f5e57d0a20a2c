/**
 * The economy. `Bank` pays a fixed batch into a wallet; `Barrack` debits a
 * unit's cost and then has the factory build the unit. Both are stateless.
 */
module Buildings {
  import opened Primitives
  import opened Wrappers
  import opened Exceptions
  import opened UnitTypes
  import opened Units
  import opened Players
  import opened UnitFactory

  const NEW_MONEY_BATCH: Int32 := 100

  const GIVE_MONEY_MESSAGE := "Give new money batch"

  /** The text of the error the barrack raises for `playerName`. */
  function NotEnoughMoneyMessage(playerName: string): string
  {
    "Player " + playerName + " does not have enough money !"
  }

  /** The message names the player: two players' messages differ when their names do. */
  lemma NotEnoughMoneyNamesPlayer(a: string, b: string)
    requires NotEnoughMoneyMessage(a) == NotEnoughMoneyMessage(b)
    ensures a == b
  {
    SameFrameSameMiddle("Player ", a, b, " does not have enough money !");
  }

  /** `Bank::give_money`: adds exactly 100, or refuses on overflow and changes nothing. */
  method GiveMoney(player: Player) returns (r: Result<(), RtsException>)
    modifies player
    ensures IsInt32(old(player.wallet.money) + NEW_MONEY_BATCH) ==>
      r.Ok? && player.wallet.money == old(player.wallet.money) + NEW_MONEY_BATCH
    ensures !IsInt32(old(player.wallet.money) + NEW_MONEY_BATCH) ==>
      r == Err(UpdatePlayerException(GIVE_MONEY_MESSAGE)) && player.wallet == old(player.wallet)
  {
    var money := player.UpdateMoney(NEW_MONEY_BATCH);
    if money.Some? {
      r := Ok(());
    } else {
      r := Err(UpdatePlayerException(GIVE_MONEY_MESSAGE));
    }
  }

  /**
   * `Barrack::retrieve_money`: debits the unit's cost. It fails only when the
   * debit leaves the `i32` range; a balance below the cost goes negative.
   */
  method RetrieveMoney(t: UnitType, player: Player) returns (ok: bool)
    modifies player
    ensures ok <==> IsInt32(old(player.wallet.money) - GetCost(t))
    ensures ok ==> player.wallet.money == old(player.wallet.money) - GetCost(t)
    ensures !ok ==> player.wallet == old(player.wallet)
  {
    var cost: Int16 := GetCost(t);
    var amount: Int32 := -cost;
    var money := player.UpdateMoney(amount);
    ok := money.Some?;
  }

  /**
   * `Barrack::buy_unit`: the debit comes first; only when it succeeds is the
   * unit built, with the identifier `id` the caller supplies.
   */
  method BuyUnit(t: UnitType, player: Player, id: Identifier) returns (r: Result<Unit, RtsException>)
    modifies player
    ensures IsInt32(old(player.wallet.money) - GetCost(t)) ==>
      && r.Ok? && fresh(r.value) && IsBaseUnit(r.value, t, id)
      && player.wallet.money == old(player.wallet.money) - GetCost(t)
    ensures !IsInt32(old(player.wallet.money) - GetCost(t)) ==>
      && r == Err(BuyUnitException(t, NotEnoughMoneyMessage(player.name)))
      && player.wallet == old(player.wallet)
  {
    var paid := RetrieveMoney(t, player);
    if paid {
      var unit := BuildUnit(t, id);
      r := Ok(unit);
    } else {
      r := Err(BuyUnitException(t, NotEnoughMoneyMessage(player.GetName())));
    }
  }

  /** The `should_buy_unit` test: 100 coins buy a Classic unit with health 20 and leave 80. */
  method ShouldBuyUnit() returns (ok: bool, health: int, balance: int)
    ensures ok && health == 20 && balance == 80
  {
    var player := new Player("Tigran");
    var _ := player.UpdateMoney(100);
    var r := BuyUnit(Classic, player, 1);
    ok := r.Ok?;
    health := if r.Ok? then r.value.health else 0;
    balance := player.GetMoney();
  }

  /** An empty wallet still buys: the balance goes to -20. */
  method BuyingOnCredit() returns (ok: bool, balance: int)
    ensures ok && balance == -20
  {
    var player := new Player("Emma");
    var r := BuyUnit(Classic, player, 2);
    ok := r.Ok?;
    balance := player.GetMoney();
  }

  /** Near `i32::MIN` the debit underflows: the purchase is refused, naming type and player. */
  method BuyingRefusedOnUnderflow() returns (r: Result<Unit, RtsException>, balance: int)
    ensures r == Err(BuyUnitException(Classic, NotEnoughMoneyMessage("Emma")))
    ensures balance == I32_MIN + 10
  {
    var player := new Player("Emma");
    var _ := player.UpdateMoney(I32_MIN + 10);
    r := BuyUnit(Classic, player, 3);
    balance := player.GetMoney();
  }

  /** Two batches pay 200 into an empty wallet. */
  method TwoBatches() returns (balance: int)
    ensures balance == 200
  {
    var player := new Player("Tigran");
    var _ := GiveMoney(player);
    var _ := GiveMoney(player);
    balance := player.GetMoney();
  }
}
