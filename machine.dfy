/** The resource ledger of the coffee machine: four stock counters and the
    cash balance, updated in place by purchases and refills, and the checks
    that decide whether a purchase can be served and whether stock is low. */
module CoffeeMachine {
  import opened Catalogue

  /** A snapshot of the five counters of a machine. */
  datatype Stock = Stock(water: int, milk: int, coffeeBeans: int, disposableCups: int, money: int)
  {
    /** The stock holds at least `need` of every ingredient and `cups` cups. */
    predicate Covers(need: Ingredients, cups: int) {
      water >= need.water && milk >= need.milk && coffeeBeans >= need.coffeeBeans &&
      disposableCups >= cups
    }

    /** No stock counter (money aside) is below zero. */
    predicate StockNonNegative() {
      water >= 0 && milk >= 0 && coffeeBeans >= 0 && disposableCups >= 0
    }
  }

  /** The counters after selling `t` for `price`: the recipe's ingredients and
      one cup are debited, the price is credited; no selection changes
      nothing. There is no check, so a counter may drop below zero. */
  function Bought(s: Stock, t: Option<CoffeeType>, price: int): Stock {
    match t
    case None => s
    case Some(c) =>
      var need := c.CoffeeIngredients();
      Stock(s.water - need.water, s.milk - need.milk, s.coffeeBeans - need.coffeeBeans,
            s.disposableCups - 1, s.money + price)
  }

  /** The counters after adding `supply` and `cups`; money is untouched and
      there is no capacity limit. */
  function Filled(s: Stock, supply: Ingredients, cups: int): Stock {
    Stock(s.water + supply.water, s.milk + supply.milk, s.coffeeBeans + supply.coffeeBeans,
          s.disposableCups + cups, s.money)
  }

  /** The counters after the cash balance is handed out. */
  function Withdrawn(s: Stock): Stock {
    s.(money := 0)
  }

  /** Which resources are short for a selection; the four flags are
      independent, so a caller can report every shortage, not just the first. */
  datatype Shortage = Shortage(water: bool, milk: bool, coffeeBeans: bool, disposableCups: bool)
  {
    predicate Any() {
      water || milk || coffeeBeans || disposableCups
    }
  }

  /** The fixed thresholds below which stock counts as low. */
  const LowThreshold: Ingredients := Ingredients(200, 75, 12)

  class Machine {
    var water: int
    var milk: int
    var coffeeBeans: int
    var disposableCups: int
    var money: int

    /** The current counters as a value. */
    function Snapshot(): Stock
      reads this
    {
      Stock(water, milk, coffeeBeans, disposableCups, money)
    }

    /** A machine with the given counters; each one defaults to 0. */
    constructor (water: int := 0, milk: int := 0, coffeeBeans: int := 0,
                 disposableCups: int := 0, money: int := 0)
      ensures Snapshot() == Stock(water, milk, coffeeBeans, disposableCups, money)
    {
      this.water := water;
      this.milk := milk;
      this.coffeeBeans := coffeeBeans;
      this.disposableCups := disposableCups;
      this.money := money;
    }

    /** Sells one cup of `t` for `price`, with no validation; returns this machine. */
    method ApplyBuy(t: Option<CoffeeType>, price: int) returns (self: Machine)
      modifies this
      ensures self == this
      ensures Snapshot() == Bought(old(Snapshot()), t, price)
    {
      if t.None? {
        return this;
      }
      var need := t.value.CoffeeIngredients();
      water := water - need.water;
      milk := milk - need.milk;
      coffeeBeans := coffeeBeans - need.coffeeBeans;
      disposableCups := disposableCups - 1;
      money := money + price;
      return this;
    }

    /** Adds `supply` and `cups` to the stock; returns this machine. */
    method ApplyFill(supply: Ingredients, cups: int) returns (self: Machine)
      modifies this
      ensures self == this
      ensures Snapshot() == Filled(old(Snapshot()), supply, cups)
    {
      water := water + supply.water;
      milk := milk + supply.milk;
      coffeeBeans := coffeeBeans + supply.coffeeBeans;
      disposableCups := disposableCups + cups;
      return this;
    }

    /** The per-resource shortages for selection `t`. No selection is short of
        every ingredient; the cup flag does not depend on the selection. */
    function Shortages(t: Option<CoffeeType>): (s: Shortage)
      reads this
      ensures t.None? ==> s.water && s.milk && s.coffeeBeans
      ensures t.Some? ==> (s.water <==> water < t.value.CoffeeIngredients().water)
      ensures t.Some? ==> (s.milk <==> milk < t.value.CoffeeIngredients().milk)
      ensures t.Some? ==> (s.coffeeBeans <==> coffeeBeans < t.value.CoffeeIngredients().coffeeBeans)
      ensures s.disposableCups <==> disposableCups < 1
      ensures s.Any() <==> !(t.Some? && Snapshot().Covers(t.value.CoffeeIngredients(), 1))
    {
      match t
      case None => Shortage(true, true, true, disposableCups < 1)
      case Some(c) =>
        var need := c.CoffeeIngredients();
        Shortage(water < need.water, milk < need.milk, coffeeBeans < need.coffeeBeans,
                 disposableCups < 1)
    }

    /** True when selection `t` cannot be served: nothing is selected or some
        resource is short. Equivalently, it is false exactly when selling `t`
        would leave every stock counter non-negative. */
    function ValidateIfWeCant(t: Option<CoffeeType>): (cant: bool)
      reads this
      ensures t.None? ==> cant
      ensures cant <==> Shortages(t).Any()
      ensures !cant <==> t.Some? && Bought(Snapshot(), t, 0).StockNonNegative()
    {
      var s := Shortages(t);
      t.None? || s.water || s.milk || s.coffeeBeans || s.disposableCups
    }

    /** True when some stock counter is under its fixed low threshold. */
    function LowLevels(): (low: bool)
      reads this
      ensures low <==> !Snapshot().Covers(LowThreshold, 1)
    {
      water < 200 || milk < 75 || coffeeBeans < 12 || disposableCups < 1
    }
  }

  /** A latte or a cappuccino that can be served never leaves the stock low:
      the low thresholds are the smaller of those two recipes' quantities. */
  lemma ServableNotEspressoIsNotLow(m: Machine, t: CoffeeType)
    requires t != Espresso
    requires !m.ValidateIfWeCant(Some(t))
    ensures !m.LowLevels()
  {
  }

  /** An espresso needs no milk, so it can be servable while milk is low. */
  lemma EspressoServableWhileLow(m: Machine)
    requires m.Snapshot() == Stock(250, 0, 16, 1, 0)
    ensures !m.ValidateIfWeCant(Some(Espresso))
    ensures m.LowLevels()
  {
  }

  /** When water is the only resource short of recipe `t`, the water flag is
      the only shortage reported. */
  lemma OnlyWaterShort(m: Machine, t: CoffeeType)
    requires m.water < t.CoffeeIngredients().water
    requires m.milk >= t.CoffeeIngredients().milk
    requires m.coffeeBeans >= t.CoffeeIngredients().coffeeBeans
    requires m.disposableCups >= 1
    ensures m.Shortages(Some(t)) == Shortage(true, false, false, false)
    ensures m.ValidateIfWeCant(Some(t))
  {
  }

  /** A refill of exactly one recipe and one cup, then a free sale of that
      recipe, restores every counter. */
  lemma FillThenBuyRestores(s: Stock, t: CoffeeType)
    ensures Bought(Filled(s, t.CoffeeIngredients(), 1), Some(t), 0) == s
  {
  }
}
