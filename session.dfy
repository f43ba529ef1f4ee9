/** The ledger steps of the machine's command handlers, with their console
    prompts and messages taken out: serving a selected coffee after checking
    it, handing out the cash, and the machine the program starts with. */
module Session {
  import opened Catalogue
  import opened CoffeeMachine

  /** Hands out the whole cash balance: returns it and leaves money at 0. */
  method TakeMoney(m: Machine) returns (given: int)
    modifies m
    ensures given == old(m.money)
    ensures m.Snapshot() == Withdrawn(old(m.Snapshot()))
  {
    given := m.money;
    m.money := 0;
  }

  /** Serves the selected coffee `t` at its own price when the check lets it
      through, and otherwise leaves the machine as it was. `confirmed` tells
      whether the "enough resources" confirmation is given: only for a served
      coffee, and only when stock was not low before the sale. A machine whose
      stock counters are non-negative keeps them non-negative. */
  method BuyCoffee(m: Machine, t: CoffeeType) returns (served: bool, confirmed: bool)
    modifies m
    ensures served <==> !old(m.ValidateIfWeCant(Some(t)))
    ensures confirmed <==> served && !old(m.LowLevels())
    ensures served ==> m.Snapshot() == Bought(old(m.Snapshot()), Some(t), t.Cost())
    ensures !served ==> m.Snapshot() == old(m.Snapshot())
    ensures old(m.Snapshot()).StockNonNegative() ==> m.Snapshot().StockNonNegative()
    ensures served ==> m.money == old(m.money) + t.Cost()
  {
    if m.ValidateIfWeCant(Some(t)) {
      return false, false;
    }
    confirmed := !m.LowLevels();
    var _ := m.ApplyBuy(Some(t), t.Cost());
    served := true;
  }

  /** Two withdrawals in a row: the first hands out the balance, the second nothing. */
  method TakeMoneyTwice(m: Machine) returns (first: int, second: int)
    modifies m
    ensures first == old(m.money) && second == 0 && m.money == 0
  {
    first := TakeMoney(m);
    second := TakeMoney(m);
  }

  /** Refilling exactly one cup of `t` and then selling it for nothing leaves
      every counter as it was. */
  method FillThenBuy(m: Machine, t: CoffeeType)
    modifies m
    ensures m.Snapshot() == old(m.Snapshot())
  {
    var _ := m.ApplyFill(t.CoffeeIngredients(), 1);
    var _ := m.ApplyBuy(Some(t), 0);
    FillThenBuyRestores(old(m.Snapshot()), t);
  }

  /** The machine the program starts with, after one espresso is sold (which
      leaves water low) and 500 ml of water and 10 cups are added. */
  method StartingMachine() returns (m: Machine, lowAfterSale: bool)
    ensures lowAfterSale
    ensures m.Snapshot() == Stock(650, 540, 104, 18, 554)
    ensures !m.LowLevels()
  {
    m := new Machine(money := 550, water := 400, milk := 540, coffeeBeans := 120, disposableCups := 9);
    var selected := FromNumber(1);
    var _ := m.ApplyBuy(selected, selected.value.Cost());
    assert m.Snapshot() == Stock(150, 540, 104, 8, 554);
    lowAfterSale := m.LowLevels();
    var _ := m.ApplyFill(Ingredients(water := 500), 10);
  }
}
