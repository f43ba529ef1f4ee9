/** The recipe catalogue of the coffee machine: three fixed coffee types, each
    with a selector number, the ingredients one cup uses and its price. */
module Catalogue {

  /** "No value" or a value; stands for a nullable reference. */
  datatype Option<+T> = None | Some(value: T)

  /** Ingredient quantities: millilitres of water and milk, grams of beans.
      Quantities default to 0. */
  datatype Ingredients = Ingredients(water: int := 0, milk: int := 0, coffeeBeans: int := 0)

  /** The coffee types, in their declaration order. */
  datatype CoffeeType = Espresso | Latte | Cappuccino {

    /** The number a customer types to select this coffee. */
    function NumberAssociated(): (n: int)
      ensures 1 <= n <= 3
    {
      match this
      case Espresso => 1
      case Latte => 2
      case Cappuccino => 3
    }

    /** What one cup of this coffee uses; never a negative quantity, and
        always some water and some beans. */
    function CoffeeIngredients(): (i: Ingredients)
      ensures i.water > 0 && i.milk >= 0 && i.coffeeBeans > 0
    {
      match this
      case Espresso => Ingredients(water := 250, coffeeBeans := 16)
      case Latte => Ingredients(water := 350, milk := 75, coffeeBeans := 20)
      case Cappuccino => Ingredients(water := 200, milk := 100, coffeeBeans := 12)
    }

    /** The price of one cup. */
    function Cost(): (price: int)
      ensures price > 0
    {
      match this
      case Espresso => 4
      case Latte => 7
      case Cappuccino => 6
    }
  }

  /** All coffee types, in declaration order. */
  const Entries: seq<CoffeeType> := [Espresso, Latte, Cappuccino]

  /** The first entry of `entries` whose selector number is `n`, if any. */
  function FindByNumber(entries: seq<CoffeeType>, n: int): (r: Option<CoffeeType>)
    ensures r.None? <==> forall e :: e in entries ==> e.NumberAssociated() != n
    ensures r.Some? ==>
      exists i :: 0 <= i < |entries| && entries[i] == r.value &&
        r.value.NumberAssociated() == n &&
        forall j :: 0 <= j < i ==> entries[j].NumberAssociated() != n
  {
    if entries == [] then None
    else if entries[0].NumberAssociated() == n then
      Some(entries[0])
    else
      var r := FindByNumber(entries[1..], n);
      assert forall e :: e in entries[1..] ==> e in entries;
      r
  }

  /** The coffee type selected by number `n`, or None when no type has it. */
  function FromNumber(n: int): (r: Option<CoffeeType>)
    ensures r.Some? <==> 1 <= n <= 3
    ensures r.Some? ==> r.value.NumberAssociated() == n
    ensures n == 1 ==> (r == Some(Espresso) &&
      r.value.CoffeeIngredients() == Ingredients(250, 0, 16) && r.value.Cost() == 4)
    ensures n == 2 ==> (r == Some(Latte) &&
      r.value.CoffeeIngredients() == Ingredients(350, 75, 20) && r.value.Cost() == 7)
    ensures n == 3 ==> (r == Some(Cappuccino) &&
      r.value.CoffeeIngredients() == Ingredients(200, 100, 12) && r.value.Cost() == 6)
  {
    assert Espresso in Entries && Latte in Entries && Cappuccino in Entries;
    FindByNumber(Entries, n)
  }

  /** Every coffee type is found again from its own selector number. */
  lemma FromNumberRoundTrip(t: CoffeeType)
    ensures FromNumber(t.NumberAssociated()) == Some(t)
  {
  }
}
