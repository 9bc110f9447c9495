/** The cart store of src/context/cart-context.tsx: the order lines, the running
    total, the per-category / per-product / per-modifier quantity aggregates the
    promotion engine reads, the promotions currently on offer and the single best
    promotion applied to the cart. */
module Cart {
  import opened Wrappers
  import Schedule
  import opened Promotions

  datatype OrderType = DineIn | Takeaway | Delivery
  datatype RegisterType = Kiosk | Pos | Online
  datatype PromotionType = EntireOrder | Combo | RelatedItems

  datatype Category = Category(id: Id, name: string, image: Option<string>)

  /** `productModifier` is the id of the product a modifier stands for, if any. */
  datatype Modifier = Modifier(id: Id, name: string, price: int, quantity: int, preSelectedQuantity: int,
                               productModifier: Option<Id>)

  datatype ModifierGroup = ModifierGroup(id: Id, name: string, modifiers: seq<Modifier>)

  /** ICartProduct: one order line. */
  datatype CartProduct = CartProduct(id: Id, name: string, price: int, quantity: int, category: Category,
                                     image: Option<string>, notes: Option<string>, modifierGroups: seq<ModifierGroup>)

  /** IGET_RESTAURANT_PROMOTION; dates are instants in milliseconds. */
  datatype Promotion = Promotion(
    id: Id, autoApply: bool, startDate: int, endDate: int,
    availability: Option<Schedule.WeekAvailability>,
    availablePlatforms: Option<seq<RegisterType>>, availableOrderTypes: Option<seq<OrderType>>,
    minSpend: int, applyToCheapest: bool, kind: PromotionType,
    items: seq<ItemGroup>, discounts: seq<DiscountRule>)

  /** ICartPromotion: the promotion applied to the cart. */
  datatype CartPromotion = CartPromotion(discountedAmount: real, matchingProducts: QuantitiesById, promotion: Promotion)

  /** The three aggregates `updateCartQuantities` rebuilds. */
  datatype Quantities = Quantities(categories: QuantitiesById, products: QuantitiesById, modifiers: QuantitiesById)

  // ---------------------------------------------------------------------------
  // Total

  /** What a modifier adds to a line: only units above the preselected ones are charged. */
  function ModifierCharge(m: Modifier, lineQuantity: int): int {
    var changedQuantity := m.quantity - m.preSelectedQuantity;
    if changedQuantity > 0 then m.price * changedQuantity * lineQuantity else 0
  }

  function ModifiersCharge(mods: seq<Modifier>, lineQuantity: int): int {
    if mods == [] then 0 else ModifiersCharge(mods[..|mods| - 1], lineQuantity) + ModifierCharge(Last(mods), lineQuantity)
  }

  /** What the modifiers of all groups add to a line, group by group. */
  function GroupsCharge(groups: seq<ModifierGroup>, lineQuantity: int): int {
    if groups == [] then 0
    else GroupsCharge(groups[..|groups| - 1], lineQuantity) + ModifiersCharge(Last(groups).modifiers, lineQuantity)
  }

  function LineTotal(p: CartProduct): int {
    p.price * p.quantity + GroupsCharge(p.modifierGroups, p.quantity)
  }

  function LinesTotal(ps: seq<CartProduct>): int {
    if ps == [] then 0 else LinesTotal(ps[..|ps| - 1]) + LineTotal(Last(ps))
  }

  /** The total `recalculateTotal` computes; a missing line list gives 0. */
  function TotalOf(products: Option<seq<CartProduct>>): int {
    if products.None? then 0 else LinesTotal(products.value)
  }

  /** The total is additive over the line list. */
  lemma {:induction false} LinesTotalConcat(a: seq<CartProduct>, b: seq<CartProduct>)
    ensures LinesTotal(a + b) == LinesTotal(a) + LinesTotal(b)
  {
    if b == [] {
      assert a + b == a;
    } else {
      assert (a + b)[..|a + b| - 1] == a + b[..|b| - 1];
      assert Last(a + b) == Last(b);
      LinesTotalConcat(a, b[..|b| - 1]);
    }
  }

  /** Deleting line i takes exactly that line's total off; replacing it swaps
      that line's total for the new line's. */
  lemma LinesTotalEdit(ps: seq<CartProduct>, i: int, p: CartProduct)
    requires 0 <= i < |ps|
    ensures LinesTotal(ps[..i] + ps[i + 1..]) == LinesTotal(ps) - LineTotal(ps[i])
    ensures LinesTotal(ps[i := p]) == LinesTotal(ps) - LineTotal(ps[i]) + LineTotal(p)
  {
    assert ps == ps[..i] + [ps[i]] + ps[i + 1..];
    assert ps[i := p] == ps[..i] + [p] + ps[i + 1..];
    LinesTotalConcat(ps[..i] + [ps[i]], ps[i + 1..]);
    LinesTotalConcat(ps[..i] + [p], ps[i + 1..]);
    LinesTotalConcat(ps[..i], ps[i + 1..]);
    LinesTotalConcat(ps[..i], [ps[i]]);
    LinesTotalConcat(ps[..i], [p]);
    assert LinesTotal([ps[i]]) == LineTotal(ps[i]) by { assert [ps[i]][..0] == []; }
    assert LinesTotal([p]) == LineTotal(p) by { assert [p][..0] == []; }
  }

  predicate AtMostPreselected(mods: seq<Modifier>) {
    forall k :: 0 <= k < |mods| ==> mods[k].quantity <= mods[k].preSelectedQuantity
  }

  /** No modifier of any group is chosen beyond its preselected quantity. */
  predicate NoExtraModifiers(groups: seq<ModifierGroup>) {
    forall g :: 0 <= g < |groups| ==> AtMostPreselected(groups[g].modifiers)
  }

  lemma {:induction false} PreselectedModifiersAreFree(mods: seq<Modifier>, lineQuantity: int)
    requires AtMostPreselected(mods)
    ensures ModifiersCharge(mods, lineQuantity) == 0
  {
    if mods != [] {
      PreselectedModifiersAreFree(mods[..|mods| - 1], lineQuantity);
      assert Last(mods).quantity <= Last(mods).preSelectedQuantity;
    }
  }

  lemma {:induction false} PreselectedGroupsAreFree(groups: seq<ModifierGroup>, lineQuantity: int)
    requires NoExtraModifiers(groups)
    ensures GroupsCharge(groups, lineQuantity) == 0
  {
    if groups != [] {
      var n := |groups| - 1;
      assert NoExtraModifiers(groups[..n]) by {
        forall g | 0 <= g < n ensures AtMostPreselected(groups[..n][g].modifiers) {
          assert groups[..n][g] == groups[g];
        }
      }
      PreselectedGroupsAreFree(groups[..n], lineQuantity);
      PreselectedModifiersAreFree(groups[n].modifiers, lineQuantity);
    }
  }

  /** Modifiers at or below their preselected quantity add nothing: such a line
      costs its price times its quantity. */
  lemma PreselectedLineCostsItsPrice(p: CartProduct)
    requires NoExtraModifiers(p.modifierGroups)
    ensures LineTotal(p) == p.price * p.quantity
  {
    PreselectedGroupsAreFree(p.modifierGroups, p.quantity);
  }

  lemma GroupsChargeStep(groups: seq<ModifierGroup>, g: int, lineQuantity: int)
    requires 0 <= g < |groups|
    ensures GroupsCharge(groups[..g + 1], lineQuantity) == GroupsCharge(groups[..g], lineQuantity) + ModifiersCharge(groups[g].modifiers, lineQuantity)
  {
    assert groups[..g + 1][..g] == groups[..g];
  }

  lemma ModifiersChargeStep(mods: seq<Modifier>, j: int, lineQuantity: int)
    requires 0 <= j < |mods|
    ensures ModifiersCharge(mods[..j + 1], lineQuantity) == ModifiersCharge(mods[..j], lineQuantity) + ModifierCharge(mods[j], lineQuantity)
  {
    assert mods[..j + 1][..j] == mods[..j];
  }

  lemma LinesTotalStep(ps: seq<CartProduct>, i: int)
    requires 0 <= i < |ps|
    ensures LinesTotal(ps[..i + 1]) == LinesTotal(ps[..i]) + LineTotal(ps[i])
  {
    assert ps[..i + 1][..i] == ps[..i];
  }

  /** `recalculateTotal` (cart-context.tsx:314-332). */
  method RecalculateTotal(products: Option<seq<CartProduct>>) returns (totalPrice: int)
    ensures totalPrice == TotalOf(products)
  {
    totalPrice := 0;
    if products.None? {
      return;
    }
    var ps := products.value;
    var i := 0;
    while i < |ps|
      invariant 0 <= i <= |ps|
      invariant totalPrice == LinesTotal(ps[..i])
    {
      LinesTotalStep(ps, i);
      var p := ps[i];
      ghost var lineStart := totalPrice;
      totalPrice := totalPrice + p.price * p.quantity;
      var groups := p.modifierGroups;
      var g := 0;
      while g < |groups|
        invariant 0 <= g <= |groups|
        invariant totalPrice == lineStart + p.price * p.quantity + GroupsCharge(groups[..g], p.quantity)
      {
        GroupsChargeStep(groups, g, p.quantity);
        var mods := groups[g].modifiers;
        ghost var groupStart := totalPrice;
        var j := 0;
        while j < |mods|
          invariant 0 <= j <= |mods|
          invariant totalPrice == groupStart + ModifiersCharge(mods[..j], p.quantity)
        {
          ModifiersChargeStep(mods, j, p.quantity);
          var changedQuantity := mods[j].quantity - mods[j].preSelectedQuantity;
          if changedQuantity > 0 {
            totalPrice := totalPrice + mods[j].price * changedQuantity * p.quantity;
          }
          j := j + 1;
        }
        assert mods[..j] == mods;
        g := g + 1;
      }
      assert groups[..g] == groups;
      i := i + 1;
    }
    assert ps[..i] == ps;
  }

  // ---------------------------------------------------------------------------
  // Aggregates

  /** `obj[key].quantity += delta` when the key is present (an entry object is
      always truthy), otherwise `obj[key] = newEntry`. */
  function Bump(m: QuantitiesById, key: Id, newEntry: QuantityEntry, delta: int): QuantitiesById {
    Put(m, key, Bumped(Lookup(m, key), newEntry, delta))
  }

  /** The entry a `Bump` writes. */
  function Bumped(e: Option<QuantityEntry>, newEntry: QuantityEntry, delta: int): QuantityEntry {
    if e.Some? then e.value.(quantity := e.value.quantity + delta) else newEntry
  }

  /** The effect of one modifier of line `p`. */
  function AddModifier(q: Quantities, p: CartProduct, m: Modifier): Quantities {
    if m.productModifier.Some? then
      var newEntry := QuantityEntry(p.id, p.name, p.quantity, p.price, Some(p.category.id));
      q.(products := Bump(q.products, m.productModifier.value, newEntry, p.quantity * m.quantity))
    else
      var newEntry := QuantityEntry(p.id, p.name, p.quantity, p.price, None);
      q.(modifiers := Bump(q.modifiers, m.id, newEntry, p.quantity * m.quantity))
  }

  function AddModifiers(q: Quantities, p: CartProduct, mods: seq<Modifier>): Quantities {
    if mods == [] then q else AddModifier(AddModifiers(q, p, mods[..|mods| - 1]), p, Last(mods))
  }

  function AddGroups(q: Quantities, p: CartProduct, groups: seq<ModifierGroup>): Quantities {
    if groups == [] then q else AddModifiers(AddGroups(q, p, groups[..|groups| - 1]), p, Last(groups).modifiers)
  }

  /** The effect of one line on the category and product aggregates, before its modifiers. */
  function AddLineItself(q: Quantities, p: CartProduct): Quantities {
    var categoryEntry := QuantityEntry(p.category.id, p.category.name, p.quantity, p.price, None);
    var productEntry := QuantityEntry(p.id, p.name, p.quantity, p.price, Some(p.category.id));
    Quantities(Bump(q.categories, p.category.id, categoryEntry, p.quantity),
               Bump(q.products, p.id, productEntry, p.quantity),
               q.modifiers)
  }

  function AddLine(q: Quantities, p: CartProduct): Quantities {
    AddGroups(AddLineItself(q, p), p, p.modifierGroups)
  }

  function AddLines(ps: seq<CartProduct>): Quantities {
    if ps == [] then Quantities([], [], []) else AddLine(AddLines(ps[..|ps| - 1]), Last(ps))
  }

  /** The aggregates `updateCartQuantities` builds; empty for a missing list. */
  function QuantitiesOf(products: Option<seq<CartProduct>>): Quantities {
    if products.None? then Quantities([], [], []) else AddLines(products.value)
  }

  lemma AddModifiersStep(q: Quantities, p: CartProduct, mods: seq<Modifier>, j: int)
    requires 0 <= j < |mods|
    ensures AddModifiers(q, p, mods[..j + 1]) == AddModifier(AddModifiers(q, p, mods[..j]), p, mods[j])
  {
    assert mods[..j + 1][..j] == mods[..j];
  }

  lemma AddGroupsStep(q: Quantities, p: CartProduct, groups: seq<ModifierGroup>, g: int)
    requires 0 <= g < |groups|
    ensures AddGroups(q, p, groups[..g + 1]) == AddModifiers(AddGroups(q, p, groups[..g]), p, groups[g].modifiers)
  {
    assert groups[..g + 1][..g] == groups[..g];
  }

  lemma AddLinesStep(ps: seq<CartProduct>, i: int)
    requires 0 <= i < |ps|
    ensures AddLines(ps[..i + 1]) == AddLine(AddLines(ps[..i]), ps[i])
  {
    assert ps[..i + 1][..i] == ps[..i];
  }

  /** One modifier of a line in `updateCartQuantities` (cart-context.tsx:276-305). */
  method AddModifierQuantities(q: Quantities, product: CartProduct, modifier: Modifier) returns (r: Quantities)
    ensures r == AddModifier(q, product, modifier)
  {
    var delta := product.quantity * modifier.quantity;
    if modifier.productModifier.Some? {
      var key := modifier.productModifier.value;
      var existing := Lookup(q.products, key);
      var newEntry := QuantityEntry(product.id, product.name, product.quantity, product.price, Some(product.category.id));
      var entry := if existing.Some? then existing.value.(quantity := existing.value.quantity + delta) else newEntry;
      assert entry == Bumped(existing, newEntry, delta);
      r := Quantities(q.categories, Put(q.products, key, entry), q.modifiers);
    } else {
      var existing := Lookup(q.modifiers, modifier.id);
      var newEntry := QuantityEntry(product.id, product.name, product.quantity, product.price, None);
      var entry := if existing.Some? then existing.value.(quantity := existing.value.quantity + delta) else newEntry;
      assert entry == Bumped(existing, newEntry, delta);
      r := Quantities(q.categories, q.products, Put(q.modifiers, modifier.id, entry));
    }
  }

  /** One line in `updateCartQuantities` (cart-context.tsx:250-307): its
      category, its product, then each modifier of each group. */
  method AddLineQuantities(q: Quantities, product: CartProduct) returns (r: Quantities)
    ensures r == AddLine(q, product)
  {
    var existingCategory := Lookup(q.categories, product.category.id);
    var newCategory := QuantityEntry(product.category.id, product.category.name, product.quantity, product.price, None);
    var categoryEntry := if existingCategory.Some? then
        existingCategory.value.(quantity := existingCategory.value.quantity + product.quantity)
      else newCategory;
    assert categoryEntry == Bumped(existingCategory, newCategory, product.quantity);
    var existingProduct := Lookup(q.products, product.id);
    var newProduct := QuantityEntry(product.id, product.name, product.quantity, product.price, Some(product.category.id));
    var productEntry := if existingProduct.Some? then
        existingProduct.value.(quantity := existingProduct.value.quantity + product.quantity)
      else newProduct;
    assert productEntry == Bumped(existingProduct, newProduct, product.quantity);
    r := Quantities(Put(q.categories, product.category.id, categoryEntry), Put(q.products, product.id, productEntry), q.modifiers);
    ghost var base := r;
    assert base == AddLineItself(q, product);
    var groups := product.modifierGroups;
    assert groups[..0] == [];
    var g := 0;
    while g < |groups|
      invariant 0 <= g <= |groups|
      invariant r == AddGroups(base, product, groups[..g])
    {
      AddGroupsStep(base, product, groups, g);
      var mods := groups[g].modifiers;
      ghost var groupStart := r;
      assert mods[..0] == [];
      var j := 0;
      while j < |mods|
        invariant 0 <= j <= |mods|
        invariant r == AddModifiers(groupStart, product, mods[..j])
      {
        AddModifiersStep(groupStart, product, mods, j);
        r := AddModifierQuantities(r, product, mods[j]);
        j := j + 1;
      }
      assert mods[..j] == mods;
      g := g + 1;
    }
    assert groups[..g] == groups;
  }

  /** `updateCartQuantities` (cart-context.tsx:247-312), returning the three
      aggregates it stores. */
  method UpdateCartQuantities(products: Option<seq<CartProduct>>) returns (q: Quantities)
    ensures q == QuantitiesOf(products)
  {
    q := Quantities([], [], []);
    if products.None? {
      return;
    }
    var ps := products.value;
    var i := 0;
    while i < |ps|
      invariant 0 <= i <= |ps|
      invariant q == AddLines(ps[..i])
    {
      AddLinesStep(ps, i);
      q := AddLineQuantities(q, ps[i]);
      i := i + 1;
    }
    assert ps[..i] == ps;
  }

  /** Modifiers never touch the category aggregate. */
  lemma {:induction false} AddModifiersKeepsCategories(q: Quantities, p: CartProduct, mods: seq<Modifier>)
    ensures AddModifiers(q, p, mods).categories == q.categories
  {
    if mods != [] {
      AddModifiersKeepsCategories(q, p, mods[..|mods| - 1]);
    }
  }

  lemma {:induction false} AddGroupsKeepsCategories(q: Quantities, p: CartProduct, groups: seq<ModifierGroup>)
    ensures AddGroups(q, p, groups).categories == q.categories
  {
    if groups != [] {
      var n := |groups| - 1;
      AddGroupsKeepsCategories(q, p, groups[..n]);
      AddModifiersKeepsCategories(AddGroups(q, p, groups[..n]), p, groups[n].modifiers);
    }
  }

  predicate NoProductModifier(mods: seq<Modifier>) {
    forall k :: 0 <= k < |mods| ==> mods[k].productModifier.None?
  }

  /** No modifier of the line stands for a product. */
  predicate LineWithoutProductModifiers(p: CartProduct) {
    forall g :: 0 <= g < |p.modifierGroups| ==> NoProductModifier(p.modifierGroups[g].modifiers)
  }

  /** Modifiers that are not product-modifiers never touch the product aggregate. */
  lemma {:induction false} AddModifiersKeepsProducts(q: Quantities, p: CartProduct, mods: seq<Modifier>)
    requires NoProductModifier(mods)
    ensures AddModifiers(q, p, mods).products == q.products
  {
    if mods != [] {
      AddModifiersKeepsProducts(q, p, mods[..|mods| - 1]);
    }
  }

  lemma {:induction false} AddGroupsKeepsProducts(q: Quantities, p: CartProduct, groups: seq<ModifierGroup>)
    requires forall g :: 0 <= g < |groups| ==> NoProductModifier(groups[g].modifiers)
    ensures AddGroups(q, p, groups).products == q.products
  {
    if groups != [] {
      var n := |groups| - 1;
      assert forall g :: 0 <= g < n ==> groups[..n][g] == groups[g];
      AddGroupsKeepsProducts(q, p, groups[..n]);
      AddModifiersKeepsProducts(AddGroups(q, p, groups[..n]), p, groups[n].modifiers);
    }
  }

  /** Σ quantity over the lines of category `c`. */
  function CategoryLineQuantity(ps: seq<CartProduct>, c: Id): int {
    if ps == [] then 0
    else CategoryLineQuantity(ps[..|ps| - 1], c) + (if Last(ps).category.id == c then Last(ps).quantity else 0)
  }

  /** Σ quantity over the lines of product `id`. */
  function ProductLineQuantity(ps: seq<CartProduct>, id: Id): int {
    if ps == [] then 0
    else ProductLineQuantity(ps[..|ps| - 1], id) + (if Last(ps).id == id then Last(ps).quantity else 0)
  }

  function SumLineQuantities(ps: seq<CartProduct>): int {
    if ps == [] then 0 else SumLineQuantities(ps[..|ps| - 1]) + Last(ps).quantity
  }

  /** Σ quantity over the values of an aggregate. */
  function SumValues(m: QuantitiesById): int {
    if m == [] then 0 else m[0].entry.quantity + SumValues(m[1..])
  }

  lemma {:induction false} SumValuesPut(m: QuantitiesById, key: Id, e: QuantityEntry)
    ensures SumValues(Put(m, key, e)) == SumValues(m) - QuantityOrZero(Lookup(m, key)) + e.quantity
  {
    if m != [] && m[0].key != key {
      SumValuesPut(m[1..], key, e);
      assert Put(m, key, e)[1..] == Put(m[1..], key, e);
    }
  }

  /** Looking up any key after a `Bump`. */
  lemma BumpLookup(m: QuantitiesById, key: Id, newEntry: QuantityEntry, delta: int, c: Id)
    ensures var e := Lookup(m, key);
      Lookup(Bump(m, key, newEntry, delta), c) ==
        if c != key then Lookup(m, c)
        else if e.Some? then Some(e.value.(quantity := e.value.quantity + delta)) else Some(newEntry)
  {
  }

  function CategoryEntry(p: CartProduct): QuantityEntry {
    QuantityEntry(p.category.id, p.category.name, p.quantity, p.price, None)
  }

  /** The category aggregate on its own: each line bumps its category. */
  function CategoryQuantities(ps: seq<CartProduct>): QuantitiesById {
    if ps == [] then [] else Bump(CategoryQuantities(ps[..|ps| - 1]), Last(ps).category.id, CategoryEntry(Last(ps)), Last(ps).quantity)
  }

  /** The category aggregate `updateCartQuantities` builds is that fold. */
  lemma {:induction false} CategoriesAreCategoryQuantities(ps: seq<CartProduct>)
    ensures AddLines(ps).categories == CategoryQuantities(ps)
  {
    if ps != [] {
      var p := Last(ps);
      CategoriesAreCategoryQuantities(ps[..|ps| - 1]);
      AddGroupsKeepsCategories(AddLineItself(AddLines(ps[..|ps| - 1]), p), p, p.modifierGroups);
    }
  }

  predicate HasCategory(ps: seq<CartProduct>, c: Id) {
    exists i :: 0 <= i < |ps| && ps[i].category.id == c
  }

  /** A `Bump` adds `delta` to the total quantity, or the new entry's quantity. */
  lemma SumValuesBump(m: QuantitiesById, key: Id, newEntry: QuantityEntry, delta: int)
    ensures SumValues(Bump(m, key, newEntry, delta)) == SumValues(m) + (if Lookup(m, key).Some? then delta else newEntry.quantity)
  {
    SumValuesPut(m, key, Bumped(Lookup(m, key), newEntry, delta));
  }

  /** Each category aggregate exists exactly for the categories of the lines,
      and its quantity is the sum of those lines' quantities. */
  lemma {:induction false} CategoryAggregateIsSum(ps: seq<CartProduct>, c: Id)
    ensures Lookup(CategoryQuantities(ps), c).Some? <==> HasCategory(ps, c)
    ensures QuantityOrZero(Lookup(CategoryQuantities(ps), c)) == CategoryLineQuantity(ps, c)
  {
    if ps != [] {
      var n := |ps| - 1;
      var front := ps[..n];
      var p := ps[n];
      CategoryAggregateIsSum(front, c);
      assert CategoryQuantities(ps) == Bump(CategoryQuantities(front), p.category.id, CategoryEntry(p), p.quantity);
      assert CategoryLineQuantity(ps, c) == CategoryLineQuantity(front, c) + (if p.category.id == c then p.quantity else 0);
      BumpLookup(CategoryQuantities(front), p.category.id, CategoryEntry(p), p.quantity, c);
      HasCategoryStep(ps, c);
    }
  }

  lemma HasCategoryStep(ps: seq<CartProduct>, c: Id)
    requires ps != []
    ensures HasCategory(ps, c) <==> HasCategory(ps[..|ps| - 1], c) || Last(ps).category.id == c
  {
    var front := ps[..|ps| - 1];
    if HasCategory(front, c) {
      var i :| 0 <= i < |front| && front[i].category.id == c;
      assert ps[i] == front[i];
    }
    if HasCategory(ps, c) && Last(ps).category.id != c {
      var i :| 0 <= i < |ps| && ps[i].category.id == c;
      assert front[i] == ps[i];
    }
  }

  /** The line a category aggregate took its name and price from. */
  predicate FirstOfCategory(ps: seq<CartProduct>, c: Id, i: int)
    requires 0 <= i < |ps|
  {
    ps[i].category.id == c && forall j :: 0 <= j < i ==> ps[j].category.id != c
  }

  predicate CopiesCategory(e: QuantityEntry, p: CartProduct) {
    e.id == p.category.id && e.name == p.category.name && e.price == p.price
  }

  /** The first line of a category in a prefix stays the first in the whole list. */
  lemma FirstOfCategoryExtends(ps: seq<CartProduct>, n: nat, c: Id, i: nat)
    requires n <= |ps| && i < n && FirstOfCategory(ps[..n], c, i)
    ensures FirstOfCategory(ps, c, i)
  {
    assert forall j :: 0 <= j <= i ==> ps[..n][j] == ps[j];
  }

  /** The last line starts its category when no earlier line is in it. */
  lemma FirstOfCategoryAtEnd(ps: seq<CartProduct>, c: Id)
    requires ps != [] && !HasCategory(ps[..|ps| - 1], c) && Last(ps).category.id == c
    ensures FirstOfCategory(ps, c, |ps| - 1)
  {
    var front := ps[..|ps| - 1];
    forall j | 0 <= j < |ps| - 1
      ensures ps[j].category.id != c
    {
      assert front[j] == ps[j];
    }
  }

  /** A category aggregate keeps the id, name and price of the first line of
      that category; later lines only add to its quantity. */
  lemma {:induction false} CategoryAggregateFromFirstLine(ps: seq<CartProduct>, c: Id)
    requires HasCategory(ps, c)
    ensures Lookup(CategoryQuantities(ps), c).Some?
    ensures exists i :: 0 <= i < |ps| && FirstOfCategory(ps, c, i) && CopiesCategory(Lookup(CategoryQuantities(ps), c).value, ps[i])
  {
    var n := |ps| - 1;
    var front := ps[..n];
    var p := Last(ps);
    HasCategoryStep(ps, c);
    CategoryAggregateIsSum(front, c);
    BumpLookup(CategoryQuantities(front), p.category.id, CategoryEntry(p), p.quantity, c);
    var e := Lookup(CategoryQuantities(ps), c);
    if HasCategory(front, c) {
      CategoryAggregateFromFirstLine(front, c);
      var i :| 0 <= i < |front| && FirstOfCategory(front, c, i) &&
               CopiesCategory(Lookup(CategoryQuantities(front), c).value, front[i]);
      FirstOfCategoryExtends(ps, n, c, i);
      assert ps[i] == front[i];
      assert CopiesCategory(e.value, ps[i]);
    } else {
      FirstOfCategoryAtEnd(ps, c);
      assert CopiesCategory(e.value, ps[n]);
    }
  }

  /** Summed over all categories, the aggregates count every line's quantity once. */
  lemma {:induction false} CategoryAggregatesSumToLineQuantities(ps: seq<CartProduct>)
    ensures SumValues(CategoryQuantities(ps)) == SumLineQuantities(ps)
  {
    if ps != [] {
      var n := |ps| - 1;
      var p := ps[n];
      var m := CategoryQuantities(ps[..n]);
      CategoryAggregatesSumToLineQuantities(ps[..n]);
      assert CategoryQuantities(ps) == Bump(m, p.category.id, CategoryEntry(p), p.quantity);
      assert SumLineQuantities(ps) == SumLineQuantities(ps[..n]) + p.quantity;
      SumValuesBump(m, p.category.id, CategoryEntry(p), p.quantity);
    }
  }

  predicate NoProductModifiers(ps: seq<CartProduct>) {
    forall i :: 0 <= i < |ps| ==> LineWithoutProductModifiers(ps[i])
  }

  function ProductEntry(p: CartProduct): QuantityEntry {
    QuantityEntry(p.id, p.name, p.quantity, p.price, Some(p.category.id))
  }

  /** The product aggregate when no line has a product-modifier: each line bumps its product. */
  function ProductQuantities(ps: seq<CartProduct>): QuantitiesById {
    if ps == [] then [] else Bump(ProductQuantities(ps[..|ps| - 1]), Last(ps).id, ProductEntry(Last(ps)), Last(ps).quantity)
  }

  /** Without product-modifiers the product aggregate is that fold. */
  lemma {:induction false} ProductsAreProductQuantities(ps: seq<CartProduct>)
    requires NoProductModifiers(ps)
    ensures AddLines(ps).products == ProductQuantities(ps)
  {
    if ps != [] {
      var n := |ps| - 1;
      var p := ps[n];
      assert forall i :: 0 <= i < n ==> ps[..n][i] == ps[i];
      ProductsAreProductQuantities(ps[..n]);
      assert LineWithoutProductModifiers(p);
      AddGroupsKeepsProducts(AddLineItself(AddLines(ps[..n]), p), p, p.modifierGroups);
    }
  }

  /** Each product aggregate's quantity is the sum of the quantities of the lines with that id. */
  lemma {:induction false} ProductAggregateIsSum(ps: seq<CartProduct>, id: Id)
    ensures QuantityOrZero(Lookup(ProductQuantities(ps), id)) == ProductLineQuantity(ps, id)
  {
    if ps != [] {
      var n := |ps| - 1;
      var p := ps[n];
      ProductAggregateIsSum(ps[..n], id);
      BumpLookup(ProductQuantities(ps[..n]), p.id, ProductEntry(p), p.quantity, id);
    }
  }

  /** The aggregates `updateCartQuantities` builds, stated on the line list:
      categories hold the per-category sums, and without product-modifiers the
      products hold the per-product sums. */
  lemma CartQuantitiesAreSums(ps: seq<CartProduct>, c: Id, id: Id)
    ensures Lookup(QuantitiesOf(Some(ps)).categories, c).Some? <==> HasCategory(ps, c)
    ensures QuantityOrZero(Lookup(QuantitiesOf(Some(ps)).categories, c)) == CategoryLineQuantity(ps, c)
    ensures SumValues(QuantitiesOf(Some(ps)).categories) == SumLineQuantities(ps)
    ensures NoProductModifiers(ps) ==> QuantityOrZero(Lookup(QuantitiesOf(Some(ps)).products, id)) == ProductLineQuantity(ps, id)
  {
    CategoriesAreCategoryQuantities(ps);
    CategoryAggregateIsSum(ps, c);
    CategoryAggregatesSumToLineQuantities(ps);
    ProductAggregateIsSum(ps, id);
    if NoProductModifiers(ps) {
      ProductsAreProductQuantities(ps);
    }
  }

  /** A product-modifier for product `x` that has no aggregate yet gets an entry
      copying the line: the line's id, name, price and quantity, not the line's
      quantity times the modifier's. When `x` has an aggregate, its quantity grows
      by the line's quantity times the modifier's. Every other product aggregate,
      and the category and modifier aggregates, are left as they were. */
  lemma ProductModifierCopiesLine(q: Quantities, p: CartProduct, m: Modifier, x: Id, other: Id)
    requires m.productModifier == Some(x) && other != x
    ensures Lookup(q.products, x) == None ==> Lookup(AddModifier(q, p, m).products, x) == Some(ProductEntry(p))
    ensures var e := Lookup(q.products, x);
            e.Some? ==> Lookup(AddModifier(q, p, m).products, x) == Some(e.value.(quantity := e.value.quantity + p.quantity * m.quantity))
    ensures Lookup(AddModifier(q, p, m).products, other) == Lookup(q.products, other)
    ensures AddModifier(q, p, m).categories == q.categories && AddModifier(q, p, m).modifiers == q.modifiers
  {
    BumpLookup(q.products, x, ProductEntry(p), p.quantity * m.quantity, x);
    BumpLookup(q.products, x, ProductEntry(p), p.quantity * m.quantity, other);
  }

  /** An instance: one line of 2 with a product-modifier chosen 3 times records
      2 units under the line's id. */
  lemma ProductModifierCopiesLineExample(p: CartProduct, m: Modifier)
    requires p.quantity == 2 && m.quantity == 3 && m.productModifier == Some("X") && p.id != "X"
    requires p.modifierGroups == [ModifierGroup("g", "g", [m])]
    ensures Lookup(AddLines([p]).products, "X") == Some(QuantityEntry(p.id, p.name, 2, p.price, Some(p.category.id)))
  {
    assert [p][..0] == [];
    assert p.modifierGroups[..0] == [];
    assert [m][..0] == [];
    var q := AddLineItself(Quantities([], [], []), p);
    AddLinesStep([p], 0);
    assert [p][..1] == [p];
    AddGroupsStep(q, p, p.modifierGroups, 0);
    assert p.modifierGroups[..1] == p.modifierGroups;
    assert AddLines([p]) == AddModifiers(q, p, [m]);
    AddModifiersStep(q, p, [m], 0);
    assert [m][..1] == [m];
    assert q.products == Put([], p.id, ProductEntry(p));
    assert Lookup(q.products, "X") == None;
  }

  // ---------------------------------------------------------------------------
  // Promotions on offer and the best one

  /** Whether the promotion filter (cart-context.tsx:95-124) keeps `p`. A
      promotion without an availability schedule is dropped. */
  predicate OnOffer(p: Promotion, platform: Option<RegisterType>, now: int, moment: Schedule.Moment) {
    p.autoApply && platform.Some? && p.availablePlatforms.Some? && platform.value in p.availablePlatforms.value &&
    p.startDate <= now <= p.endDate &&
    p.availability.Some? && Schedule.Available(p.availability, moment)
  }

  /** The date-fns interval checks on the way to `OnOffer` need well-formed intervals. */
  predicate FilterDefined(promotions: seq<Promotion>, platform: Option<RegisterType>, now: int, moment: Schedule.Moment) {
    forall i :: 0 <= i < |promotions| ==>
      var p := promotions[i];
      (p.autoApply && platform.Some? && p.availablePlatforms.Some? && platform.value in p.availablePlatforms.value ==>
        p.startDate <= p.endDate &&
        (p.startDate <= now <= p.endDate ==> Schedule.SlotsWellFormed(p.availability, moment)))
  }

  function PromotionsOnOffer(promotions: seq<Promotion>, platform: Option<RegisterType>, now: int, moment: Schedule.Moment)
    : (r: seq<Promotion>)
    ensures forall p :: p in r <==> p in promotions && OnOffer(p, platform, now, moment)
  {
    if promotions == [] then []
    else
      var front := promotions[..|promotions| - 1];
      assert promotions == front + [Last(promotions)];
      PromotionsOnOffer(front, platform, now, moment) +
        (if OnOffer(Last(promotions), platform, now, moment) then [Last(promotions)] else [])
  }

  /** `processPromotionDiscounts` for one promotion: the matched products and the discount. */
  function PromotionDiscount(p: Promotion, cats: QuantitiesById, prods: QuantitiesById, total: int): (QuantitiesById, real) {
    match p.kind
    case EntireOrder => ([], MaxDiscountedAmount(cats, prods, p.discounts, None, Some(total)))
    case _ =>
      var m := MatchingProducts(cats, prods, p.items, p.applyToCheapest);
      if m.None? then ([], 0.0) else (m.value, MaxDiscountedAmount(cats, prods, p.discounts, m, None))
  }

  /** What one promotion offers the cart, `None` when it is skipped. */
  function Offer(p: Promotion, orderType: Option<OrderType>, total: int, cats: QuantitiesById, prods: QuantitiesById)
    : (r: Option<CartPromotion>)
    ensures r.Some? ==> r.value.discountedAmount > 0.0 && r.value.promotion == p
  {
    if orderType.None? || p.availableOrderTypes.None? then None
    else if orderType.value !in p.availableOrderTypes.value then None
    else if total < p.minSpend then None
    else
      var d := PromotionDiscount(p, cats, prods, total);
      if !(d.1 > 0.0) then None else Some(CartPromotion(d.1, d.0, p))
  }

  function Offers(promotions: seq<Promotion>, orderType: Option<OrderType>, total: int, cats: QuantitiesById, prods: QuantitiesById)
    : (r: seq<Option<CartPromotion>>)
    ensures |r| == |promotions|
    ensures forall i :: 0 <= i < |r| ==> r[i] == Offer(promotions[i], orderType, total, cats, prods)
  {
    seq(|promotions|, i requires 0 <= i < |promotions| => Offer(promotions[i], orderType, total, cats, prods))
  }

  /** Left to right, a later offer replaces the best so far only when strictly larger. */
  function BestOffer(offers: seq<Option<CartPromotion>>): Option<CartPromotion> {
    if offers == [] then None
    else
      var best := BestOffer(offers[..|offers| - 1]);
      var o := Last(offers);
      if o.Some? && (best.None? || o.value.discountedAmount > best.value.discountedAmount) then o else best
  }

  /** Offer k is a largest offer and every offer before it is strictly smaller. */
  predicate FirstLargest(offers: seq<Option<CartPromotion>>, k: int)
    requires 0 <= k < |offers| && offers[k].Some?
  {
    (forall i :: 0 <= i < |offers| && offers[i].Some? ==> offers[i].value.discountedAmount <= offers[k].value.discountedAmount) &&
    (forall i :: 0 <= i < k && offers[i].Some? ==> offers[i].value.discountedAmount < offers[k].value.discountedAmount)
  }

  lemma {:induction false} BestOfferIsFirstLargest(offers: seq<Option<CartPromotion>>)
    ensures var r := BestOffer(offers);
      (r.None? <==> forall i :: 0 <= i < |offers| ==> offers[i].None?) &&
      (r.Some? ==> exists k :: 0 <= k < |offers| && offers[k] == r && FirstLargest(offers, k))
  {
    if offers != [] {
      var n := |offers| - 1;
      var front := offers[..n];
      BestOfferIsFirstLargest(front);
      var best := BestOffer(front);
      var o := offers[n];
      assert forall i :: 0 <= i < n ==> offers[i] == front[i];
      if o.Some? && (best.None? || o.value.discountedAmount > best.value.discountedAmount) {
        if best.Some? {
          var k :| 0 <= k < n && front[k] == best && FirstLargest(front, k);
        }
        assert FirstLargest(offers, n);
      } else if best.Some? {
        var k :| 0 <= k < n && front[k] == best && FirstLargest(front, k);
        assert FirstLargest(offers, k);
      }
    }
  }

  /** The promotion chosen for the cart: none when nothing qualifies, otherwise
      the first promotion with the strictly greatest positive discount. */
  lemma ChosenPromotionIsBest(promotions: seq<Promotion>, orderType: Option<OrderType>, total: int,
                              cats: QuantitiesById, prods: QuantitiesById)
    ensures var offers := Offers(promotions, orderType, total, cats, prods);
      var r := BestOffer(offers);
      (r.None? <==> forall i :: 0 <= i < |promotions| ==> Offer(promotions[i], orderType, total, cats, prods).None?) &&
      (r.Some? ==> r.value.discountedAmount > 0.0) &&
      (r.Some? ==> exists k :: 0 <= k < |promotions| && r.value.promotion == promotions[k] && offers[k] == r && FirstLargest(offers, k))
  {
    BestOfferIsFirstLargest(Offers(promotions, orderType, total, cats, prods));
  }

  /** An order type the cart does not have, or that the promotion does not
      list, and a total under the minimum spend each rule a promotion out. */
  lemma SkippedPromotions(p: Promotion, orderType: Option<OrderType>, total: int, cats: QuantitiesById, prods: QuantitiesById)
    requires orderType.None? || p.availableOrderTypes.None? || orderType.value !in p.availableOrderTypes.value || total < p.minSpend
    ensures Offer(p, orderType, total, cats, prods).None?
  {
  }

  /** `subTotal` (cart-context.tsx:87-93). */
  function SubTotalOf(total: int, promotion: Option<CartPromotion>): (r: real)
    ensures promotion.Some? ==> r + promotion.value.discountedAmount == total as real
    ensures promotion.None? ==> r == total as real
  {
    if promotion.Some? then total as real - promotion.value.discountedAmount else total as real
  }

  // ---------------------------------------------------------------------------
  // The store

  class CartStore {
    var orderType: Option<OrderType>
    var tableNumber: Option<string>
    var products: Option<seq<CartProduct>>
    var notes: string
    var total: int
    var subTotal: real
    var promotion: Option<CartPromotion>
    var categoryQuantities: QuantitiesById
    var productQuantities: QuantitiesById
    var modifierQuantities: QuantitiesById
    var availablePromotions: seq<Promotion>

    /** The total and the aggregates are those of the current line list. */
    predicate Valid()
      reads this
    {
      total == TotalOf(products) &&
      Quantities(categoryQuantities, productQuantities, modifierQuantities) == QuantitiesOf(products)
    }

    predicate Initial()
      reads this
    {
      orderType.None? && tableNumber.None? && products.None? && notes == "" &&
      categoryQuantities == [] && productQuantities == [] && modifierQuantities == [] &&
      promotion.None? && total == 0 && subTotal == 0.0
    }

    constructor ()
      ensures Initial() && Valid() && availablePromotions == []
    {
      orderType, tableNumber, products, notes := None, None, None, "";
      total, subTotal, promotion := 0, 0.0, None;
      categoryQuantities, productQuantities, modifierQuantities := [], [], [];
      availablePromotions := [];
    }

    /** Stores the new line list, its total and its aggregates. */
    method SetProducts(newProducts: Option<seq<CartProduct>>)
      modifies this`products, this`total, this`categoryQuantities, this`productQuantities, this`modifierQuantities
      ensures products == newProducts && Valid()
    {
      var newTotal := RecalculateTotal(newProducts);
      var q := UpdateCartQuantities(newProducts);
      products, total, categoryQuantities, productQuantities, modifierQuantities :=
        newProducts, newTotal, q.categories, q.products, q.modifiers;
    }

    /** `addItem` (cart-context.tsx:342-354). */
    method AddItem(product: CartProduct)
      modifies this
      ensures products == Some(if old(products).None? then [product] else old(products).value + [product])
      ensures Valid()
      ensures old(Valid()) ==> total == old(total) + LineTotal(product)
      ensures orderType == old(orderType) && tableNumber == old(tableNumber) && notes == old(notes)
      ensures subTotal == old(subTotal) && promotion == old(promotion) && availablePromotions == old(availablePromotions)
    {
      var newProducts := products;
      assert LinesTotal([product]) == LineTotal(product) by { assert [product][..0] == []; }
      if newProducts.Some? {
        LinesTotalConcat(newProducts.value, [product]);
        newProducts := Some(newProducts.value + [product]);
      } else {
        newProducts := Some([product]);
      }
      SetProducts(newProducts);
    }

    /** `updateItem` (cart-context.tsx:356-368): replaces line `index` only. */
    method UpdateItem(index: int, product: CartProduct)
      requires products.Some? ==> 0 <= index < |products.value|
      modifies this
      ensures old(products).None? ==> products.None? && unchanged(this)
      ensures old(products).Some? ==> products == Some(old(products).value[index := product]) && Valid()
      ensures old(products).Some? && old(Valid()) ==>
        total == old(total) - LineTotal(old(products).value[index]) + LineTotal(product)
      ensures orderType == old(orderType) && tableNumber == old(tableNumber) && notes == old(notes)
      ensures subTotal == old(subTotal) && promotion == old(promotion) && availablePromotions == old(availablePromotions)
    {
      if products.None? {
        return;
      }
      LinesTotalEdit(products.value, index, product);
      SetProducts(Some(products.value[index := product]));
    }

    /** `updateItemQuantity` (cart-context.tsx:370-385): changes the quantity of line `index` only. */
    method UpdateItemQuantity(index: int, quantity: int)
      requires products.Some? ==> 0 <= index < |products.value|
      modifies this
      ensures old(products).None? ==> products.None? && unchanged(this)
      ensures old(products).Some? ==>
        products == Some(old(products).value[index := old(products).value[index].(quantity := quantity)]) && Valid()
      ensures orderType == old(orderType) && tableNumber == old(tableNumber) && notes == old(notes)
      ensures subTotal == old(subTotal) && promotion == old(promotion) && availablePromotions == old(availablePromotions)
    {
      if products.None? {
        return;
      }
      var productAtIndex := products.value[index];
      productAtIndex := productAtIndex.(quantity := quantity);
      SetProducts(Some(products.value[index := productAtIndex]));
    }

    /** `deleteItem` (cart-context.tsx:387-399): removes line `index`, later lines move up. */
    method DeleteItem(index: int)
      requires products.Some? ==> 0 <= index < |products.value|
      modifies this
      ensures old(products).None? ==> products.None? && unchanged(this)
      ensures old(products).Some? ==>
        products == Some(old(products).value[..index] + old(products).value[index + 1..]) && Valid()
      ensures old(products).Some? && old(Valid()) ==> total == old(total) - LineTotal(old(products).value[index])
      ensures orderType == old(orderType) && tableNumber == old(tableNumber) && notes == old(notes)
      ensures subTotal == old(subTotal) && promotion == old(promotion) && availablePromotions == old(availablePromotions)
    {
      if products.None? {
        return;
      }
      LinesTotalEdit(products.value, index, products.value[index]);
      SetProducts(Some(products.value[..index] + products.value[index + 1..]));
    }

    /** `clearCart` (cart-context.tsx:401-412). */
    method ClearCart()
      modifies this
      ensures Initial() && Valid()
      ensures availablePromotions == old(availablePromotions)
    {
      orderType, tableNumber, products, notes := None, None, None, "";
      categoryQuantities, productQuantities, modifierQuantities := [], [], [];
      promotion, total, subTotal := None, 0, 0.0;
    }

    /** The `subTotal` effect (cart-context.tsx:87-93). */
    method RefreshSubTotal()
      modifies this
      ensures subTotal == SubTotalOf(total, promotion)
      ensures promotion == old(promotion) && total == old(total) && products == old(products)
      ensures orderType == old(orderType) && tableNumber == old(tableNumber) && notes == old(notes)
      ensures categoryQuantities == old(categoryQuantities) && productQuantities == old(productQuantities)
      ensures modifierQuantities == old(modifierQuantities) && availablePromotions == old(availablePromotions)
    {
      if promotion.Some? {
        subTotal := total as real - promotion.value.discountedAmount;
      } else {
        subTotal := total as real;
      }
    }

    /** The promotion filter effect (cart-context.tsx:95-124); `restaurantPromotions`
        is `None` while no restaurant is selected. */
    method FilterAvailablePromotions(restaurantPromotions: Option<seq<Promotion>>, platform: Option<RegisterType>,
                                     now: int, moment: Schedule.Moment)
      requires restaurantPromotions.Some? ==> FilterDefined(restaurantPromotions.value, platform, now, moment)
      modifies this
      ensures availablePromotions ==
        (if restaurantPromotions.None? then [] else PromotionsOnOffer(restaurantPromotions.value, platform, now, moment))
      ensures promotion == old(promotion) && total == old(total) && products == old(products) && subTotal == old(subTotal)
      ensures orderType == old(orderType) && tableNumber == old(tableNumber) && notes == old(notes)
      ensures categoryQuantities == old(categoryQuantities) && productQuantities == old(productQuantities)
      ensures modifierQuantities == old(modifierQuantities)
    {
      if restaurantPromotions.None? {
        availablePromotions := [];
      } else {
        availablePromotions := SelectPromotionsOnOffer(restaurantPromotions.value, platform, now, moment);
      }
    }

    /** The best-promotion effect (cart-context.tsx:199-245). With no promotion
        on offer or an empty cart it returns early and the previous promotion stays. */
    method ReevaluatePromotion()
      modifies this
      ensures (availablePromotions == [] || products.None? || products.value == []) ==> promotion == old(promotion)
      ensures !(availablePromotions == [] || products.None? || products.value == []) ==>
        promotion == BestOffer(Offers(availablePromotions, orderType, total, categoryQuantities, productQuantities))
      ensures total == old(total) && products == old(products) && subTotal == old(subTotal)
      ensures orderType == old(orderType) && tableNumber == old(tableNumber) && notes == old(notes)
      ensures categoryQuantities == old(categoryQuantities) && productQuantities == old(productQuantities)
      ensures modifierQuantities == old(modifierQuantities) && availablePromotions == old(availablePromotions)
    {
      if |availablePromotions| == 0 {
        return;
      }
      if products.None? || |products.value| == 0 {
        return;
      }
      promotion := ChooseBestPromotion(availablePromotions, orderType, total, categoryQuantities, productQuantities);
    }
  }

  /** The loop of the promotion filter: keeps, in order, the promotions on offer. */
  method SelectPromotionsOnOffer(ps: seq<Promotion>, platform: Option<RegisterType>, now: int, moment: Schedule.Moment)
    returns (availPromotions: seq<Promotion>)
    requires FilterDefined(ps, platform, now, moment)
    ensures availPromotions == PromotionsOnOffer(ps, platform, now, moment)
  {
    availPromotions := [];
    var i := 0;
    while i < |ps|
      invariant 0 <= i <= |ps|
      invariant availPromotions == PromotionsOnOffer(ps[..i], platform, now, moment)
    {
      assert ps[..i + 1][..i] == ps[..i];
      var p := ps[i];
      var keep := false;
      if p.autoApply && platform.Some? && p.availablePlatforms.Some? && platform.value in p.availablePlatforms.value {
        if p.startDate <= now <= p.endDate && p.availability.Some? {
          keep := Schedule.IsAvailable(p.availability, moment);
        }
      }
      if keep {
        availPromotions := availPromotions + [p];
      }
      i := i + 1;
    }
    assert ps[..i] == ps;
  }

  /** The loop of the best-promotion effect: the first strictly largest offer. */
  method ChooseBestPromotion(promotions: seq<Promotion>, orderType: Option<OrderType>, total: int,
                             cats: QuantitiesById, prods: QuantitiesById)
    returns (bestPromotion: Option<CartPromotion>)
    ensures bestPromotion == BestOffer(Offers(promotions, orderType, total, cats, prods))
  {
    ghost var offers := Offers(promotions, orderType, total, cats, prods);
    bestPromotion := None;
    var i := 0;
    while i < |promotions|
      invariant 0 <= i <= |promotions|
      invariant bestPromotion == BestOffer(offers[..i])
    {
      assert offers[..i + 1][..i] == offers[..i];
      var p := promotions[i];
      var discount: Option<CartPromotion> := None;
      if orderType.Some? && p.availableOrderTypes.Some? && orderType.value in p.availableOrderTypes.value && total >= p.minSpend {
        var d := PromotionDiscount(p, cats, prods, total);
        if d.1 > 0.0 {
          discount := Some(CartPromotion(d.1, d.0, p));
        }
      }
      assert discount == offers[i];
      if discount.Some? && (bestPromotion.None? || discount.value.discountedAmount > bestPromotion.value.discountedAmount) {
        bestPromotion := discount;
      }
      i := i + 1;
    }
    assert offers[..i] == offers;
  }

  /** Once a promotion is chosen the customer pays strictly less than the total. */
  lemma ChosenPromotionLowersSubTotal(promotions: seq<Promotion>, orderType: Option<OrderType>, total: int,
                                      cats: QuantitiesById, prods: QuantitiesById)
    ensures var r := BestOffer(Offers(promotions, orderType, total, cats, prods));
      r.Some? ==> SubTotalOf(total, r) < total as real
  {
    ChosenPromotionIsBest(promotions, orderType, total, cats, prods);
  }

  /** Emptying the cart line by line does not drop the applied promotion: the
      re-evaluation returns before choosing again. */
  method StalePromotionAfterEmptying(cart: CartStore)
    requires cart.products == Some([]) && cart.promotion.Some?
    modifies cart
    ensures cart.promotion == old(cart.promotion)
  {
    cart.ReevaluatePromotion();
  }
}
