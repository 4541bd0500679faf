/**
 * The `Menu` aggregate of the kitchenpos catalogue (package kitchenpos.menu.domain).
 *
 * A menu has an identifier assigned by the store, a name, a price, the id of the
 * menu group it belongs to and an owned list of menu products. Its one business
 * rule is about the price: it must be present and non-negative when the menu is
 * built, and a menu may be sold below the sum of its components but never above it.
 *
 * Java references that may be null are `Option`s here; a thrown exception is an
 * `Err` carrying the exception's class. Prices are exact integers (the smallest
 * currency unit): the source only ever compares them numerically.
 */
module MenuDomain {

  datatype Option<+T> = None | Some(value: T)

  datatype Result<+T, +E> = Ok(value: T) | Err(error: E)

  /** The two exceptions the aggregate can raise. */
  datatype Failure = IllegalArgument | NullPointer

  /** A component of a menu: which product, and how many of it. Its internals are not part of this model. */
  datatype MenuProduct = MenuProduct(productId: int, quantity: int)

  /** The observable value of a `Menu` object: its fields. */
  datatype MenuState = MenuState(
    id: Option<int>,
    name: Option<string>,
    price: int,
    menuGroupId: int,
    menuProducts: seq<MenuProduct>)

  /** The class invariant: a constructed menu has a non-negative price. */
  predicate ValidState(s: MenuState)
  {
    s.price >= 0
  }

  // ---------------------------------------------------------------------------
  // Construction
  // ---------------------------------------------------------------------------

  /** The price check run first by the checking constructor: null or negative is illegal, zero is fine. */
  function ValidatePrice(price: Option<int>): (r: Result<int, Failure>)
    ensures r.Ok? <==> price.Some? && price.value >= 0
    ensures r.Ok? ==> r.value == price.value && r.value >= 0
    ensures r.Err? ==> r.error == IllegalArgument
  {
    if price.None? || price.value < 0 then Err(IllegalArgument) else Ok(price.value)
  }

  /**
   * The four-argument constructor: the group id is a primitive, so it is never null.
   * The price is checked before any field is set; a null list becomes an empty one.
   */
  function NewMenu(name: Option<string>, price: Option<int>, menuGroupId: int,
                   menuProducts: Option<seq<MenuProduct>>): (r: Result<MenuState, Failure>)
    ensures r.Ok? <==> price.Some? && price.value >= 0
    ensures r.Err? ==> r.error == IllegalArgument
    ensures r.Ok? ==> ValidState(r.value)
    ensures r.Ok? ==> r.value.id == None && r.value.name == name && r.value.price == price.value
                      && r.value.menuGroupId == menuGroupId
    ensures r.Ok? && menuProducts.None? ==> r.value.menuProducts == []
    ensures r.Ok? && menuProducts.Some? ==> r.value.menuProducts == menuProducts.value
  {
    match ValidatePrice(price)
    case Err(e) => Err(e)
    case Ok(p) =>
      var products := if menuProducts.None? then [] else menuProducts.value;
      Ok(MenuState(None, name, p, menuGroupId, products))
  }

  /**
   * Construction from a boxed (nullable) group id, as the three-argument constructor
   * and `Builder.build` do: unboxing a null group id throws before the price is looked at.
   */
  function NewMenuBoxed(name: Option<string>, price: Option<int>, menuGroupId: Option<int>,
                        menuProducts: Option<seq<MenuProduct>>): (r: Result<MenuState, Failure>)
    ensures menuGroupId.None? ==> r == Err(NullPointer)
    ensures menuGroupId.Some? ==> r == NewMenu(name, price, menuGroupId.value, menuProducts)
  {
    match menuGroupId
    case None => Err(NullPointer)
    case Some(g) => NewMenu(name, price, g, menuProducts)
  }

  // ---------------------------------------------------------------------------
  // The calls that change a constructed menu
  // ---------------------------------------------------------------------------

  /** The public calls that change a menu after construction. */
  datatype MenuCall =
    | SetIdCall(newId: Option<int>)
    | SetNameCall(newName: Option<string>)
    | AddCall(added: MenuProduct)

  /** The menu after one call. */
  function Apply(s: MenuState, c: MenuCall): MenuState
  {
    match c
    case SetIdCall(i) => s.(id := i)
    case SetNameCall(n) => s.(name := n)
    case AddCall(mp) => s.(menuProducts := s.menuProducts + [mp])
  }

  /** The menu after a sequence of calls, first to last. */
  function Run(s: MenuState, calls: seq<MenuCall>): MenuState
    decreases |calls|
  {
    if calls == [] then s else Run(Apply(s, calls[0]), calls[1..])
  }

  /** The products that a sequence of calls adds, in call order. */
  function Added(calls: seq<MenuCall>): seq<MenuProduct>
    decreases |calls|
  {
    if calls == [] then []
    else (if calls[0].AddCall? then [calls[0].added] else []) + Added(calls[1..])
  }

  /**
   * Whatever calls follow construction, the price and the group id are those given
   * to the constructor, the invariant `price >= 0` still holds, and the product list
   * is the original one followed by exactly the added products, in order.
   */
  lemma {:induction false} RunKeepsPrice(s: MenuState, calls: seq<MenuCall>)
    ensures Run(s, calls).price == s.price
    ensures Run(s, calls).menuGroupId == s.menuGroupId
    ensures ValidState(s) ==> ValidState(Run(s, calls))
    ensures Run(s, calls).menuProducts == s.menuProducts + Added(calls)
    decreases |calls|
  {
    if calls != [] {
      var s' := Apply(s, calls[0]);
      RunKeepsPrice(s', calls[1..]);
      assert s'.menuProducts == s.menuProducts + (if calls[0].AddCall? then [calls[0].added] else []);
    }
  }

  /**
   * The price check's verdict is fixed at construction: after any sequence of calls
   * a menu accepts exactly the component sums it accepted before.
   */
  lemma SumCheckVerdictIsStable(s: MenuState, calls: seq<MenuCall>, sumOfPrice: int)
    ensures PriceWithinSum(Run(s, calls), sumOfPrice) <==> PriceWithinSum(s, sumOfPrice)
  {
    RunKeepsPrice(s, calls);
  }

  // ---------------------------------------------------------------------------
  // Price against the sum of the components
  // ---------------------------------------------------------------------------

  /** The rule `validateSumOfPrice` enforces: never marked up above the component sum. */
  predicate PriceWithinSum(s: MenuState, sumOfPrice: int)
  {
    s.price <= sumOfPrice
  }

  /**
   * The component sum the caller passes to `validateSumOfPrice`: the quantity times the
   * catalogue price of each product, or `None` when some product is not in the catalogue.
   */
  function SumOfPrice(items: seq<MenuProduct>, catalogue: map<int, int>): Option<int>
    decreases |items|
  {
    if items == [] then Some(0)
    else if items[0].productId !in catalogue then None
    else match SumOfPrice(items[1..], catalogue)
      case None => None
      case Some(rest) => Some(LinePrice(items[0], catalogue) + rest)
  }

  /** The line price of one component. */
  function LinePrice(mp: MenuProduct, catalogue: map<int, int>): int
    requires mp.productId in catalogue
  {
    mp.quantity * catalogue[mp.productId]
  }

  /** Appending a priced component adds its line price to the sum; an unpriced one makes the sum undefined. */
  lemma {:induction false} SumOfPriceAppend(items: seq<MenuProduct>, mp: MenuProduct, catalogue: map<int, int>)
    ensures mp.productId !in catalogue ==> SumOfPrice(items + [mp], catalogue) == None
    ensures mp.productId in catalogue ==>
      SumOfPrice(items + [mp], catalogue) ==
        (match SumOfPrice(items, catalogue)
         case None => None
         case Some(t) => Some(t + LinePrice(mp, catalogue)))
    decreases |items|
  {
    if items == [] {
      assert items + [mp] == [mp];
      assert [mp][1..] == [];
    } else {
      assert (items + [mp])[1..] == items[1..] + [mp];
      SumOfPriceAppend(items[1..], mp, catalogue);
    }
  }

  /** With non-negative catalogue prices and quantities, a defined component sum is non-negative. */
  lemma {:induction false} SumOfPriceNonNegative(items: seq<MenuProduct>, catalogue: map<int, int>)
    requires forall p :: p in catalogue ==> catalogue[p] >= 0
    requires forall i :: 0 <= i < |items| ==> items[i].quantity >= 0
    ensures SumOfPrice(items, catalogue).Some? ==> SumOfPrice(items, catalogue).value >= 0
    decreases |items|
  {
    if items != [] && items[0].productId in catalogue {
      SumOfPriceNonNegative(items[1..], catalogue);
      var q, c := items[0].quantity, catalogue[items[0].productId];
      assert q >= 0 && c >= 0;
      assert q * c >= 0;
    }
  }

  /**
   * Adding a component with a non-negative line price to a menu that passed the sum
   * check keeps it passing against the new sum: a discount can only grow.
   */
  lemma AddMenuProductKeepsPriceWithinSum(s: MenuState, mp: MenuProduct, catalogue: map<int, int>)
    requires SumOfPrice(s.menuProducts, catalogue).Some?
    requires PriceWithinSum(s, SumOfPrice(s.menuProducts, catalogue).value)
    requires mp.productId in catalogue && LinePrice(mp, catalogue) >= 0
    ensures SumOfPrice(Apply(s, AddCall(mp)).menuProducts, catalogue).Some?
    ensures PriceWithinSum(Apply(s, AddCall(mp)), SumOfPrice(Apply(s, AddCall(mp)).menuProducts, catalogue).value)
  {
    SumOfPriceAppend(s.menuProducts, mp, catalogue);
  }

  // ---------------------------------------------------------------------------
  // The mutable entity
  // ---------------------------------------------------------------------------

  class Menu {
    var id: Option<int>
    var name: Option<string>
    var price: int
    var menuGroupId: int
    var menuProducts: seq<MenuProduct>

    /** The menu's fields as a value. */
    function State(): MenuState
      reads this
    {
      MenuState(id, name, price, menuGroupId, menuProducts)
    }

    predicate Valid()
      reads this
    {
      ValidState(State())
    }

    /** The field assignments of the checking constructor, reached only once the price has passed. */
    constructor Init(name: Option<string>, price: int, menuGroupId: int, menuProducts: Option<seq<MenuProduct>>)
      requires price >= 0
      ensures Valid()
      ensures State() == NewMenu(name, Some(price), menuGroupId, menuProducts).value
    {
      this.id := None;
      this.name := name;
      this.price := price;
      this.menuGroupId := menuGroupId;
      this.menuProducts := if menuProducts.None? then [] else menuProducts.value;
    }

    /** The four-argument constructor, its exception made a result. */
    static method Create(name: Option<string>, price: Option<int>, menuGroupId: int,
                         menuProducts: Option<seq<MenuProduct>>) returns (r: Result<Menu, Failure>)
      ensures r.Ok? <==> price.Some? && price.value >= 0
      ensures r.Err? ==> r.error == IllegalArgument
      ensures r.Ok? ==> fresh(r.value) && r.value.Valid()
      ensures r.Ok? ==> r.value.State() == NewMenu(name, price, menuGroupId, menuProducts).value
    {
      var checked := ValidatePrice(price);
      if checked.Err? {
        r := Err(checked.error);
      } else {
        var m := new Menu.Init(name, checked.value, menuGroupId, menuProducts);
        r := Ok(m);
      }
    }

    /** Construction from a nullable group id, shared by the three-argument constructor and `Builder.build`. */
    static method CreateBoxed(name: Option<string>, price: Option<int>, menuGroupId: Option<int>,
                              menuProducts: Option<seq<MenuProduct>>) returns (r: Result<Menu, Failure>)
      ensures r.Ok? <==> NewMenuBoxed(name, price, menuGroupId, menuProducts).Ok?
      ensures r.Err? ==> r.error == NewMenuBoxed(name, price, menuGroupId, menuProducts).error
      ensures r.Ok? ==> fresh(r.value) && r.value.Valid()
      ensures r.Ok? ==> r.value.State() == NewMenuBoxed(name, price, menuGroupId, menuProducts).value
    {
      match menuGroupId
      case None =>
        r := Err(NullPointer);
      case Some(g) =>
        r := Create(name, price, g, menuProducts);
    }

    /** The three-argument constructor: no product list, so the menu starts with none. */
    static method CreateWithoutProducts(name: Option<string>, price: Option<int>, menuGroupId: Option<int>)
      returns (r: Result<Menu, Failure>)
      ensures r.Ok? <==> menuGroupId.Some? && price.Some? && price.value >= 0
      ensures menuGroupId.None? ==> r == Err(NullPointer)
      ensures menuGroupId.Some? && r.Err? ==> r.error == IllegalArgument
      ensures r.Ok? ==> fresh(r.value) && r.value.Valid()
      ensures r.Ok? ==> r.value.menuProducts == [] && r.value.price == price.value
      ensures r.Ok? ==> r.value.State() == NewMenuBoxed(name, price, menuGroupId, None).value
    {
      r := CreateBoxed(name, price, menuGroupId, None);
    }

    method AddMenuProduct(menuProduct: MenuProduct)
      requires Valid()
      modifies this
      ensures Valid()
      ensures State() == Apply(old(State()), AddCall(menuProduct))
      ensures menuProducts == old(menuProducts) + [menuProduct]
      ensures id == old(id) && name == old(name) && price == old(price) && menuGroupId == old(menuGroupId)
    {
      menuProducts := menuProducts + [menuProduct];
    }

    /** Rejects a price above the component sum; a null sum fails in the comparison itself. Changes nothing. */
    method ValidateSumOfPrice(sumOfPrice: Option<int>) returns (r: Result<(), Failure>)
      requires Valid()
      ensures r.Ok? <==> sumOfPrice.Some? && PriceWithinSum(State(), sumOfPrice.value)
      ensures sumOfPrice.None? ==> r == Err(NullPointer)
      ensures sumOfPrice.Some? && r.Err? ==> r.error == IllegalArgument
    {
      match sumOfPrice
      case None =>
        r := Err(NullPointer);
      case Some(sum) =>
        r := if price > sum then Err(IllegalArgument) else Ok(());
    }

    method SetId(id: Option<int>)
      requires Valid()
      modifies this
      ensures Valid()
      ensures State() == Apply(old(State()), SetIdCall(id))
      ensures this.id == id && name == old(name) && price == old(price)
      ensures menuGroupId == old(menuGroupId) && menuProducts == old(menuProducts)
    {
      this.id := id;
    }

    method SetName(name: Option<string>)
      requires Valid()
      modifies this
      ensures Valid()
      ensures State() == Apply(old(State()), SetNameCall(name))
      ensures this.name == name && id == old(id) && price == old(price)
      ensures menuGroupId == old(menuGroupId) && menuProducts == old(menuProducts)
    {
      this.name := name;
    }
  }

  /** The fluent builder: every setter stores its argument and returns the same builder. */
  class Builder {
    var name: Option<string>
    var price: Option<int>
    var menuGroupId: Option<int>
    var menuProducts: Option<seq<MenuProduct>>

    constructor ()
      ensures name == None && price == None && menuGroupId == None && menuProducts == None
    {
      name, price, menuGroupId, menuProducts := None, None, None, None;
    }

    method Name(name: Option<string>) returns (b: Builder)
      modifies this
      ensures b == this && this.name == name
      ensures price == old(price) && menuGroupId == old(menuGroupId) && menuProducts == old(menuProducts)
    {
      this.name := name;
      b := this;
    }

    method Price(price: Option<int>) returns (b: Builder)
      modifies this
      ensures b == this && this.price == price
      ensures name == old(name) && menuGroupId == old(menuGroupId) && menuProducts == old(menuProducts)
    {
      this.price := price;
      b := this;
    }

    method MenuGroupId(menuGroupId: Option<int>) returns (b: Builder)
      modifies this
      ensures b == this && this.menuGroupId == menuGroupId
      ensures name == old(name) && price == old(price) && menuProducts == old(menuProducts)
    {
      this.menuGroupId := menuGroupId;
      b := this;
    }

    method MenuProducts(menuProducts: Option<seq<MenuProduct>>) returns (b: Builder)
      modifies this
      ensures b == this && this.menuProducts == menuProducts
      ensures name == old(name) && price == old(price) && menuGroupId == old(menuGroupId)
    {
      this.menuProducts := menuProducts;
      b := this;
    }

    /** Builds through the checking constructor, so the same price rule and list default apply. */
    method Build() returns (r: Result<Menu, Failure>)
      ensures r.Ok? <==> menuGroupId.Some? && price.Some? && price.value >= 0
      ensures menuGroupId.None? ==> r == Err(NullPointer)
      ensures menuGroupId.Some? && r.Err? ==> r.error == IllegalArgument
      ensures r.Ok? ==> fresh(r.value) && r.value.Valid()
      ensures r.Ok? ==> r.value.State() == NewMenuBoxed(name, price, menuGroupId, menuProducts).value
    {
      r := Menu.CreateBoxed(name, price, menuGroupId, menuProducts);
    }
  }

  /** A caller's view: a built menu keeps its price through setters and additions. */
  method BuildThenChange(mp: MenuProduct)
  {
    var b := new Builder();
    b := b.Name(Some("chicken salad"));
    b := b.Price(Some(9000));
    b := b.MenuGroupId(Some(2));
    var r := b.Build();
    assert r.Ok?;
    var m := r.value;
    assert m.menuProducts == [];
    m.AddMenuProduct(mp);
    m.SetName(Some("salad"));
    m.SetId(Some(1));
    assert m.price == 9000 && m.menuProducts == [mp];
    var v := m.ValidateSumOfPrice(Some(9000));
    assert v.Ok?;
    v := m.ValidateSumOfPrice(Some(8999));
    assert v == Err(IllegalArgument);

    var bad := Menu.CreateWithoutProducts(Some("fried chicken"), Some(-10000), Some(2));
    assert bad == Err(IllegalArgument);
  }
}
