# kitchenpos `Menu` aggregate, modelled in Dafny

This project models the `Menu` aggregate of the kitchenpos restaurant point-of-sale
backend (package `kitchenpos.menu.domain`). A menu has a store-assigned id, a name, a
price, the id of its menu group and an owned list of menu products. The aggregate
holds the catalogue's pricing rule. A menu can only be built with a price that is
present and not negative. A menu is rejected when its price is above the sum of its
components: it may be discounted, never marked up.

Everything is in `menu.dfy`, module `MenuDomain`:

- `MenuState` is the value of a menu's fields. `ValidState` is the class invariant `price >= 0`.
- `NewMenu` and `NewMenuBoxed` specify the constructors. `Apply` and `Run` specify
  the calls that change a built menu.
- `class Menu` is the mutable entity. Each of its methods is tied to those functions through `State()`.
- `class Builder` is the fluent builder. Its `Build` goes through the same checking constructor.
- A thrown exception is an `Err` carrying the exception class (`IllegalArgument`, `NullPointer`).
  A Java reference that may be null is an `Option`.
- Prices are exact integers in one fixed smallest currency unit. The source compares
  `BigDecimal`s only with `compareTo`, which is numeric. Any set of prices written
  at a common scale compares the same way once scaled to integers. A price finer
  than the chosen unit (such as `0.001` against a unit of `0.01`) has no counterpart here.

`SumOfPrice` (quantity times catalogue price, summed over the components) is not in
`Menu.java`. It is the value a caller passes to `validateSumOfPrice`, defined here
so that the effect of `addMenuProduct` on the sum check can be stated.

## Model

| member | source | states |
|---|---|---|
| `MenuDomain.ValidatePrice` | src/main/java/kitchenpos/menu/domain/Menu.java:46-50 | accepts exactly a present price that is not negative, so zero is accepted. It returns that price. Null or negative gives `IllegalArgumentException` |
| `MenuDomain.NewMenu` | src/main/java/kitchenpos/menu/domain/Menu.java:31-40 | four-argument construction succeeds iff the price is present and >= 0, otherwise `IllegalArgumentException`. On success name, price and group id are stored as given and id is unset. A null list becomes `[]` and a given list is kept. The result satisfies the invariant |
| `MenuDomain.NewMenuBoxed` | src/main/java/kitchenpos/menu/domain/Menu.java:42-44 | with a null group id, construction fails with `NullPointerException` (unboxing to `long`) before the price is checked. Otherwise it is exactly the four-argument constructor |
| `MenuDomain.RunKeepsPrice` | src/main/java/kitchenpos/menu/domain/Menu.java:52-109 | after any sequence of `setId`/`setName`/`addMenuProduct` calls, price and group id are unchanged and `price >= 0` still holds. The product list is the original followed by exactly the added products, in call order |
| `MenuDomain.SumCheckVerdictIsStable` | src/main/java/kitchenpos/menu/domain/Menu.java:56-60 | after any later calls, the menu accepts exactly the component sums it accepted right after construction |
| `MenuDomain.SumOfPriceAppend` | src/main/java/kitchenpos/menu/domain/Menu.java:52-54 | appending a component adds its line price to the component sum. An uncatalogued component makes the sum undefined |
| `MenuDomain.SumOfPriceNonNegative` | src/main/java/kitchenpos/menu/domain/Menu.java:56-60 | with non-negative catalogue prices and quantities, a defined component sum is >= 0. So a zero-priced menu always passes the sum check |
| `MenuDomain.AddMenuProductKeepsPriceWithinSum` | src/main/java/kitchenpos/menu/domain/Menu.java:52-60 | a menu that passed the sum check still passes after `addMenuProduct` of a component with a non-negative line price |
| `MenuDomain.Menu.Create` | src/main/java/kitchenpos/menu/domain/Menu.java:31-40 | the four-argument constructor: fails with `IllegalArgumentException` iff the price is null or negative. Otherwise it returns a fresh menu whose fields are those `NewMenu` specifies and which is `Valid()` |
| `MenuDomain.Menu.CreateBoxed` | src/main/java/kitchenpos/menu/domain/Menu.java:42-44 | construction through a nullable group id: the same outcome and fields as `NewMenuBoxed` |
| `MenuDomain.Menu.CreateWithoutProducts` | src/main/java/kitchenpos/menu/domain/Menu.java:42-44 | the three-argument constructor succeeds iff the group id is present and the price is present and >= 0. A null group id gives `NullPointerException`. The new menu has no products |
| `MenuDomain.Menu.Init` | src/main/java/kitchenpos/menu/domain/Menu.java:33-39 | the field assignments after the price check: fields as given, null list replaced by an empty one, invariant established |
| `MenuDomain.Menu.AddMenuProduct` | src/main/java/kitchenpos/menu/domain/Menu.java:52-54 | appends exactly the one product at the end. Id, name, price, group id and the earlier products are unchanged and the invariant is kept |
| `MenuDomain.Menu.ValidateSumOfPrice` | src/main/java/kitchenpos/menu/domain/Menu.java:56-60 | fails with `IllegalArgumentException` iff the price is above the sum, so an equal or higher sum passes. A null sum gives `NullPointerException`. Changes nothing |
| `MenuDomain.Menu.SetId` | src/main/java/kitchenpos/menu/domain/Menu.java:99-101 | sets only the id. Price, name, group id and products are unchanged and the invariant is kept |
| `MenuDomain.Menu.SetName` | src/main/java/kitchenpos/menu/domain/Menu.java:107-109 | sets only the name. Price, id, group id and products are unchanged and the invariant is kept |
| `MenuDomain.Builder.constructor` | src/main/java/kitchenpos/menu/domain/Menu.java:62-69 | a new builder has every field null |
| `MenuDomain.Builder.Name` | src/main/java/kitchenpos/menu/domain/Menu.java:71-74 | stores the name, leaves the other fields alone and returns the same builder |
| `MenuDomain.Builder.Price` | src/main/java/kitchenpos/menu/domain/Menu.java:76-79 | stores the price, leaves the other fields alone and returns the same builder |
| `MenuDomain.Builder.MenuGroupId` | src/main/java/kitchenpos/menu/domain/Menu.java:80-83 | stores the group id, leaves the other fields alone and returns the same builder |
| `MenuDomain.Builder.MenuProducts` | src/main/java/kitchenpos/menu/domain/Menu.java:84-87 | stores the product list, leaves the other fields alone and returns the same builder |
| `MenuDomain.Builder.Build` | src/main/java/kitchenpos/menu/domain/Menu.java:89-91 | builds through the checking constructor. It succeeds iff the group id and price are present and the price >= 0. A null group id gives `NullPointerException` and a bad price gives `IllegalArgumentException`. The fields of the new menu are those `NewMenuBoxed` specifies, including the empty-list default |

## Left out

- The no-argument constructor (`Menu.java:28-29`) exists only for the object-relational mapper. It leaves the price null, outside the invariant. Identity generation and the cascade/orphan-removal mapping of the product list (`Menu.java:15-26`) are mapper behaviour too.
- `equals`, `hashCode` and `toString` (`Menu.java:123-149`) are object-identity boilerplate. The getters (`Menu.java:95-121`) are plain field reads of `Menu`.
- Aliasing is not captured. The Java menu keeps the very list object passed to its constructor or builder, so a caller that changes that list later changes the menu. Here the list is a `seq` value copied in.
- Menu.AddMenuProduct: always appends here. In Java the menu appends to the very list object its caller handed to the constructor or to `Builder.menuProducts`. When that list is fixed-size or unmodifiable (for example one from `Arrays.asList`), `addMenuProduct` throws `UnsupportedOperationException`, which is not modelled. Also, `getMenuProducts` (`Menu.java:119-121`) returns that same live list, so its holder can remove or replace components without calling `addMenuProduct`. So the product-list clauses of `Menu.AddMenuProduct` and `RunKeepsPrice` hold only for a list that can grow and that nothing but the three modelled mutators changes.
- `MenuProduct` has no internals here beyond a product id and a quantity. Its own class is not part of this model.
- `SumOfPrice`: it stands in for the caller's component sum. The service that computes it and the product and menu-group stores it reads are not part of this model.
