/** Stock and sold-out helpers of src/util/util.tsx: how many units of a menu
    product or modifier are still orderable given what the cart already holds,
    the badge text for low stock, and the sold-out test. */
module Stock {
  import opened Wrappers
  import Text
  import Promotions

  /** Units of `id` already in the cart's aggregate, 0 when absent. */
  function InCart(cart: Promotions.QuantitiesById, id: Promotions.Id): int {
    Promotions.QuantityOrZero(Promotions.Lookup(cart, id))
  }

  /** `getProductQuantityAvailable` (util.tsx:103-117); `getModifierQuantityAvailable`
      (util.tsx:136-150) is the same code over the modifier aggregate. */
  function QuantityAvailable(id: Promotions.Id, totalQuantityAvailable: int, cart: Promotions.QuantitiesById): (r: int)
    ensures r + InCart(cart, id) == totalQuantityAvailable
  {
    var inCart := Promotions.Lookup(cart, id);
    if inCart.Some? then totalQuantityAvailable - inCart.value.quantity else totalQuantityAvailable
  }

  /** `isProductQuantityAvailable` (util.tsx:119-134); `isModifierQuantityAvailable`
      (util.tsx:152-167) is the same code. A missing or zero limit means unlimited. */
  function IsQuantityAvailable(id: Promotions.Id, totalQuantityAvailable: Option<int>, cart: Promotions.QuantitiesById): (r: bool)
    ensures r <==> totalQuantityAvailable.None? || totalQuantityAvailable.value == 0 ||
                   InCart(cart, id) < totalQuantityAvailable.value
  {
    if totalQuantityAvailable.None? || totalQuantityAvailable.value == 0 then true
    else QuantityAvailable(id, totalQuantityAvailable.value, cart) > 0
  }

  /** Adding one unit of `id` to the cart uses up exactly one unit of stock, and
      no other product's availability changes. */
  lemma AddingOneUsesOne(id: Promotions.Id, other: Promotions.Id, total: int, cart: Promotions.QuantitiesById, e: Promotions.QuantityEntry)
    requires e.quantity == InCart(cart, id) + 1
    ensures QuantityAvailable(id, total, Promotions.Put(cart, id, e)) == QuantityAvailable(id, total, cart) - 1
    ensures other != id ==> QuantityAvailable(other, total, Promotions.Put(cart, id, e)) == QuantityAvailable(other, total, cart)
  {
  }

  /** A limited item stops being orderable exactly when the cart holds its
      whole stock: with a limit of n, n - 1 units in the cart still allow one
      more and n units do not. */
  lemma LimitReachedAtStock(id: Promotions.Id, n: int, cart: Promotions.QuantitiesById)
    requires n != 0
    ensures InCart(cart, id) == n - 1 ==> IsQuantityAvailable(id, Some(n), cart)
    ensures InCart(cart, id) >= n ==> !IsQuantityAvailable(id, Some(n), cart)
  {
  }

  /** `getQuantityRemainingText` (util.tsx:169-175). */
  function QuantityRemainingText(quantityRemaining: int): (r: string)
    ensures quantityRemaining == 1 ==> r == "Last one!"
    ensures quantityRemaining != 1 ==> r == Text.IntToString(quantityRemaining) + " left!"
  {
    if quantityRemaining == 1 then "Last one!" else Text.IntToString(quantityRemaining) + " left!"
  }

  lemma LastOneDiffersFromCount(n: int)
    ensures "Last one!" != Text.IntToString(n) + " left!"
  {
    var t := Text.IntToString(n) + " left!";
    assert t[|t| - 2] == 't';
    assert "Last one!"[|"Last one!"| - 2] == 'e';
  }

  /** The badge text determines the quantity: different quantities never show
      the same text. */
  lemma QuantityRemainingTextInjective(a: int, b: int)
    ensures QuantityRemainingText(a) == QuantityRemainingText(b) <==> a == b
  {
    var ta, tb := QuantityRemainingText(a), QuantityRemainingText(b);
    if a != b {
      if a == 1 {
        LastOneDiffersFromCount(b);
      } else if b == 1 {
        LastOneDiffersFromCount(a);
      } else {
        assert ta[..|ta| - 6] == Text.IntToString(a);
        assert tb[..|tb| - 6] == Text.IntToString(b);
        Text.IntToStringRoundTrip(a);
        Text.IntToStringRoundTrip(b);
      }
    }
  }

  /** `isItemSoldOut` (util.tsx:15-21): sold out by flag, or by a sold-out date
      equal to today's "yyyy-MM-dd". */
  function IsItemSoldOut(soldOut: Option<bool>, soldOutDate: Option<string>, today: string): (r: bool)
    ensures r <==> soldOut == Some(true) || soldOutDate == Some(today)
  {
    if (soldOut.Some? && soldOut.value) || (soldOutDate.Some? && soldOutDate.value == today) then true else false
  }

  /** The flag marks an item sold out on every day. Without the flag, a sold-out
      date marks it on that day and on no other, so the mark lapses the next day
      with nothing written; and without either the item is never sold out. */
  lemma SoldOutDays(soldOut: Option<bool>, soldOutDate: Option<string>, today: string, other: string)
    ensures soldOut == Some(true) ==> IsItemSoldOut(soldOut, soldOutDate, today)
    ensures soldOut != Some(true) && soldOutDate.Some? ==>
              (IsItemSoldOut(soldOut, soldOutDate, today) <==> today == soldOutDate.value)
    ensures soldOut != Some(true) && IsItemSoldOut(soldOut, soldOutDate, today) && IsItemSoldOut(soldOut, soldOutDate, other) ==>
              today == other
    ensures soldOut != Some(true) && soldOutDate == None ==> !IsItemSoldOut(soldOut, soldOutDate, today)
  {
  }
}
