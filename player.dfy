/** A player: an immutable name and a wallet holding a signed 32-bit balance. */
module Players {
  import opened Primitives
  import opened Wrappers

  /** Private to the player; `Wallet::new` holds 0 coins. */
  datatype Wallet = Wallet(money: Int32)

  class Player {
    const name: string
    var wallet: Wallet

    constructor (name: string)
      ensures this.name == name && wallet.money == 0
    {
      this.name := name;
      wallet := Wallet(0);
    }

    function GetName(): string { name }

    function GetMoney(): Int32 reads this { wallet.money }

    /**
     * Checked 32-bit addition: applies `amount` and returns the new balance, or
     * refuses with `None` and leaves the balance alone. Any result in the `i32`
     * range is accepted, negative ones included.
     */
    method UpdateMoney(amount: Int32) returns (r: Option<Int32>)
      modifies this
      ensures IsInt32(old(wallet.money) + amount) ==>
        wallet.money == old(wallet.money) + amount && r == Some(wallet.money)
      ensures !IsInt32(old(wallet.money) + amount) ==> r == None && wallet == old(wallet)
    {
      var res := wallet.money + amount;
      if IsInt32(res) {
        wallet := Wallet(res);
        r := Some(wallet.money);
      } else {
        r := None;
      }
    }
  }

  /** The `should_earn_money` test. */
  method ShouldEarnMoney() returns (balance: int)
    ensures balance == 10
  {
    var player := new Player("Tigran");
    var _ := player.UpdateMoney(10);
    balance := player.GetMoney();
  }

  /** The `should_loose_money` test: +10 then -8 leaves 2. */
  method ShouldLooseMoney() returns (balance: int)
    ensures balance == 2
  {
    var player := new Player("Tigran");
    var _ := player.UpdateMoney(10);
    var _ := player.UpdateMoney(-8);
    balance := player.GetMoney();
  }

  /** A debit past zero is accepted: only the `i32` range bounds the balance. */
  method BalanceMayGoNegative() returns (r: Option<Int32>, balance: int)
    ensures r == Some(-8) && balance == -8
  {
    var player := new Player("Emma");
    r := player.UpdateMoney(-8);
    balance := player.GetMoney();
  }

  /** An addition past `i32::MAX` is refused and the balance stays where it was. */
  method OverflowIsRefused() returns (r: Option<Int32>, balance: int)
    ensures r == None && balance == I32_MAX
  {
    var player := new Player("Tigran");
    var _ := player.UpdateMoney(I32_MAX);
    r := player.UpdateMoney(1);
    balance := player.GetMoney();
  }
}
