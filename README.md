# Coffee machine resource ledger in Dafny

This project models the resource ledger of a console coffee vending machine, written in Kotlin (`Machine.kt`). It covers two parts:

- **The recipe catalogue** (`catalogue.dfy`, module `Catalogue`). Espresso, latte and cappuccino each have a selector number (1, 2, 3), their ingredients (water, milk, coffee beans) and a price. `FromNumber` finds the first declared type with a given number and returns `None` when no type has it.
- **The machine** (`machine.dfy`, module `CoffeeMachine`). The class `Machine` has five integer counters: water, milk, coffeeBeans, disposableCups and money. `ApplyBuy` and `ApplyFill` update them in place and return the machine itself. `Shortages`, `ValidateIfWeCant` and `LowLevels` are read-only checks. `Snapshot` gives the counters as a `Stock` value. The functions `Bought`, `Filled` and `Withdrawn` state the new counters after each update.
- **The command steps** (`session.dfy`, module `Session`). `TakeMoney` hands out the cash and sets money to 0. `BuyCoffee` is the ledger part of the buy command: check the selection, then sell at the coffee's own price. `StartingMachine` is the machine the program starts with.

A nullable recipe is an `Option<CoffeeType>`. When no recipe is given, the source compares each ingredient counter (water, milk, coffee beans) with `Integer.MAX_VALUE`; cups are always compared with 1. Here a `None` selection simply counts as short of every ingredient, so the check always fails for it.

The low-stock thresholds are water 200, milk 75, beans 12 and one cup. The milk threshold is the latte's milk, not the cappuccino's, so the thresholds are the smaller of the latte's and the cappuccino's quantities. This model follows the code. As a result, an espresso can pass the check while the stock is low. `EspressoServableWhileLow` shows this.

## Model

| member | source | states |
|---|---|---|
| Catalogue.CoffeeType.NumberAssociated | Machine.kt:60-75 | every coffee type's selector number is 1, 2 or 3 |
| Catalogue.CoffeeType.CoffeeIngredients | Machine.kt:61-75 | every recipe uses a positive amount of water and beans and no negative amount of milk |
| Catalogue.CoffeeType.Cost | Machine.kt:64-74 | every price is positive |
| Catalogue.FindByNumber | Machine.kt:82-84 | the search returns None exactly when no entry has the number; otherwise the entry it returns has that number and no earlier entry does |
| Catalogue.FromNumber | Machine.kt:60-84 | 1, 2 and 3 select espresso (250/0/16, price 4), latte (350/75/20, price 7) and cappuccino (200/100/12, price 6); every other number gives None; a found type has the number asked for |
| Catalogue.FromNumberRoundTrip | Machine.kt:60-84 | looking up a type's own number finds that type |
| CoffeeMachine.Machine.constructor | Machine.kt:3-9 | a new machine holds exactly the five given counters, each defaulting to 0 |
| CoffeeMachine.Machine.ApplyBuy | Machine.kt:10-20 | with no selection, nothing changes; otherwise water, milk and beans drop by the recipe's amounts, cups drop by 1 and money rises by the price, with no check, so counters can go negative; it returns the same machine |
| CoffeeMachine.Machine.ApplyFill | Machine.kt:22-28 | water, milk, beans and cups rise by the given amounts, money is unchanged and there is no upper limit; it returns the same machine |
| CoffeeMachine.Machine.Shortages | Machine.kt:30-47 | for a selected recipe, the water, milk and beans flags are each set exactly when that counter is below the recipe's amount; no selection is short of every ingredient; the cup flag is set exactly when there are no cups; some flag is set exactly when the selection is absent or the stock does not cover its recipe plus one cup |
| CoffeeMachine.Machine.ValidateIfWeCant | Machine.kt:30-53 | no selection always fails; the result is true exactly when some shortage flag is set; it is false exactly when a sale of the selection would leave every stock counter non-negative |
| CoffeeMachine.Machine.LowLevels | Machine.kt:55-57 | true exactly when the stock falls short of 200 ml water, 75 ml milk, 12 g beans or 1 cup |
| CoffeeMachine.ServableNotEspressoIsNotLow | Machine.kt:31-56 | if a latte or a cappuccino passes the check, the stock is not low |
| CoffeeMachine.EspressoServableWhileLow | Machine.kt:31-56 | with 250 ml water, no milk, 16 g beans and 1 cup, an espresso passes the check while the stock is low |
| CoffeeMachine.OnlyWaterShort | Machine.kt:31-52 | when only water is short of a recipe, the water flag is the only one set and the check fails |
| CoffeeMachine.FillThenBuyRestores | Machine.kt:10-27 | refilling one recipe's ingredients and one cup, then selling that recipe for 0, restores all five counters |
| Session.TakeMoney | Machine.kt:155-158 | returns the balance it found and leaves money at 0, with every other counter unchanged |
| Session.TakeMoneyTwice | Machine.kt:155-158 | a second withdrawal right after the first hands out 0 |
| Session.BuyCoffee | Machine.kt:130-139 | a coffee is served exactly when the check passes, at its own price; otherwise the machine is unchanged; the confirmation is given only for a served coffee with stock not low beforehand; non-negative stock stays non-negative |
| Session.FillThenBuy | Machine.kt:10-27 | on a machine, `ApplyFill` of one recipe and one cup followed by `ApplyBuy` of that recipe for 0 leaves every counter as it was |
| Session.StartingMachine | Machine.kt:90-92 | the starting machine (400/540/120/9, money 550) sells an espresso and is then low on water; adding 500 ml and 10 cups gives 650/540/104/18 with money 554, which is not low |

## Left out

- `main`, `menu`, `showStatus`, the prompt and read loops of `buyCoffee` and `fill`, and all console output: these are console I/O. This includes the per-resource "Sorry, not enough ..." messages; `Shortages` carries what a caller needs to print them.
- Parsing of typed numbers with `toInt()`, which throws on text that is not a number: input handling is outside the ledger. `BuyCoffee` takes a coffee type that has already been selected.
- The `Integer.MAX_VALUE` comparisons for a missing recipe. They are replaced by an explicit `None` case. For a counter exactly equal to `Integer.MAX_VALUE`, the source would skip that shortage message, but its result is still true.
- 32-bit `Int` overflow and wrap-around: all counters are unbounded integers. This assumes that no counter ever reaches the 32-bit limits.
