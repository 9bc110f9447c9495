/** The promotion matcher and the discount calculator of src/util/util.tsx:
    `getMatchingPromotionProducts` decides whether a cart satisfies a promotion's
    AND-ed item groups and which cart quantities the promotion consumes;
    `getMaxDiscountedAmount` turns a promotion's discount rules into the largest
    candidate discount. Both are written as methods with the source's loops and
    proved equal to specification functions, whose properties are lemmas. */
module Promotions {
  import opened Wrappers

  type Id = string

  /** One value of an `ICartItemQuantitiesById` object. `categoryId` is present
      on product aggregates only. */
  datatype QuantityEntry = QuantityEntry(id: Id, name: string, quantity: int, price: int, categoryId: Option<Id>)

  /** One property of such an object: its key and its value. The key is usually
      the value's id, but the cart stores some values under another key. */
  datatype Slot = Slot(key: Id, entry: QuantityEntry)

  /** A JavaScript object keyed by id; `Object.values` follows insertion order. */
  type QuantitiesById = seq<Slot>

  /** `obj[key]`: the value stored under `key`, if any. */
  function Lookup(m: QuantitiesById, key: Id): (r: Option<QuantityEntry>)
    ensures r.None? <==> forall i :: 0 <= i < |m| ==> m[i].key != key
    ensures r.Some? ==> exists i :: 0 <= i < |m| && m[i] == Slot(key, r.value)
  {
    if m == [] then None else if m[0].key == key then Some(m[0].entry) else Lookup(m[1..], key)
  }

  /** `obj[key] = e`: overwrite in place when the key exists, otherwise append. */
  function Put(m: QuantitiesById, key: Id, e: QuantityEntry): (r: QuantitiesById)
    ensures Lookup(r, key) == Some(e)
    ensures forall k :: k != key ==> Lookup(r, k) == Lookup(m, k)
    ensures forall i :: 0 <= i < |r| ==> r[i] == Slot(key, e) || r[i] in m
  {
    if m == [] then [Slot(key, e)]
    else if m[0].key == key then [Slot(key, e)] + m[1..]
    else [m[0]] + Put(m[1..], key, e)
  }

  /** `Object.values(obj)`. */
  function Values(m: QuantitiesById): (r: seq<QuantityEntry>)
    ensures |r| == |m| && forall i :: 0 <= i < |m| ==> r[i] == m[i].entry
  {
    seq(|m|, i requires 0 <= i < |m| => m[i].entry)
  }

  /** IGET_DASHBOARD_PROMOTION_ITEMS: a condition on the cart. */
  datatype ItemGroup = ItemGroup(minQuantity: int, categoryIds: seq<Id>, productIds: seq<Id>)

  function Last<T>(s: seq<T>): T
    requires s != []
  {
    s[|s| - 1]
  }

  function QuantityOrZero(e: Option<QuantityEntry>): int {
    if e.Some? then e.value.quantity else 0
  }

  // ---------------------------------------------------------------------------
  // What one item group counts and which aggregates it offers as candidates

  /** Quantity contributed by the group's categories that are in the cart. */
  function CategoryCount(cats: QuantitiesById, ids: seq<Id>): int {
    if ids == [] then 0 else CategoryCount(cats, ids[..|ids| - 1]) + QuantityOrZero(Lookup(cats, Last(ids)))
  }

  /** Quantity contributed by the group's products that are in the cart. */
  function ProductCount(prods: QuantitiesById, ids: seq<Id>): int {
    if ids == [] then 0 else ProductCount(prods, ids[..|ids| - 1]) + QuantityOrZero(Lookup(prods, Last(ids)))
  }

  /** The product aggregates whose category is `categoryId`, in order. */
  function InCategory(vals: seq<QuantityEntry>, categoryId: Id): (r: seq<QuantityEntry>)
    ensures forall e :: e in r ==> e in vals
  {
    if vals == [] then []
    else InCategory(vals[..|vals| - 1], categoryId) + (if Last(vals).categoryId == Some(categoryId) then [Last(vals)] else [])
  }

  function CategoryCandidates(cats: QuantitiesById, prods: QuantitiesById, ids: seq<Id>): (r: seq<QuantityEntry>)
    ensures forall e :: e in r ==> e in Values(prods)
  {
    if ids == [] then []
    else
      var c := Lookup(cats, Last(ids));
      CategoryCandidates(cats, prods, ids[..|ids| - 1]) + (if c.Some? then InCategory(Values(prods), c.value.id) else [])
  }

  function ProductCandidates(prods: QuantitiesById, ids: seq<Id>): (r: seq<QuantityEntry>)
    ensures forall e :: e in r ==> e in Values(prods)
  {
    if ids == [] then []
    else
      var p := Lookup(prods, Last(ids));
      ProductCandidates(prods, ids[..|ids| - 1]) + (if p.Some? then [p.value] else [])
  }

  /** `quantityCounted` of util.tsx:293-313. */
  function Counted(cats: QuantitiesById, prods: QuantitiesById, g: ItemGroup): int {
    CategoryCount(cats, g.categoryIds) + ProductCount(prods, g.productIds)
  }

  /** `matchingProductsTemp` of util.tsx:292-313. */
  function Candidates(cats: QuantitiesById, prods: QuantitiesById, g: ItemGroup): (r: seq<QuantityEntry>)
    ensures forall e :: e in r ==> e in Values(prods)
  {
    CategoryCandidates(cats, prods, g.categoryIds) + ProductCandidates(prods, g.productIds)
  }

  // ---------------------------------------------------------------------------
  // Ordering candidates by price

  /** Sort key: ascending price for `applyToCheapest`, descending otherwise. */
  function Rank(e: QuantityEntry, cheapest: bool): int {
    if cheapest then e.price else -e.price
  }

  predicate SortedByRank(s: seq<QuantityEntry>, cheapest: bool) {
    forall i, j :: 0 <= i < j < |s| ==> Rank(s[i], cheapest) <= Rank(s[j], cheapest)
  }

  function Insert(x: QuantityEntry, s: seq<QuantityEntry>, cheapest: bool): (r: seq<QuantityEntry>)
    ensures multiset(r) == multiset(s) + multiset{x}
  {
    if s == [] then [x]
    else if Rank(x, cheapest) <= Rank(s[0], cheapest) then [x] + s
    else
      assert s == [s[0]] + s[1..];
      [s[0]] + Insert(x, s[1..], cheapest)
  }

  predicate RankAtLeast(s: seq<QuantityEntry>, cheapest: bool, v: int) {
    forall j :: 0 <= j < |s| ==> v <= Rank(s[j], cheapest)
  }

  /** Inserting keeps a lower bound on the ranks. */
  lemma {:induction false} InsertRankAtLeast(x: QuantityEntry, s: seq<QuantityEntry>, cheapest: bool, v: int)
    requires RankAtLeast(s, cheapest, v) && v <= Rank(x, cheapest)
    ensures RankAtLeast(Insert(x, s, cheapest), cheapest, v)
  {
    if s != [] && Rank(x, cheapest) > Rank(s[0], cheapest) {
      InsertRankAtLeast(x, s[1..], cheapest, v);
      var rest := Insert(x, s[1..], cheapest);
      var r := [s[0]] + rest;
      forall j | 0 <= j < |r| ensures v <= Rank(r[j], cheapest) {
        if j > 0 { assert r[j] == rest[j - 1]; }
      }
    }
  }

  /** A sorted list whose ranks are all at least that of `a` stays sorted behind `a`. */
  lemma ConsSorted(a: QuantityEntry, rest: seq<QuantityEntry>, cheapest: bool)
    requires SortedByRank(rest, cheapest) && RankAtLeast(rest, cheapest, Rank(a, cheapest))
    ensures SortedByRank([a] + rest, cheapest)
  {
    var r := [a] + rest;
    forall i, j | 0 <= i < j < |r| ensures Rank(r[i], cheapest) <= Rank(r[j], cheapest) {
      assert r[j] == rest[j - 1];
      if i > 0 { assert r[i] == rest[i - 1]; }
    }
  }

  lemma {:induction false} InsertSorted(x: QuantityEntry, s: seq<QuantityEntry>, cheapest: bool)
    requires SortedByRank(s, cheapest)
    ensures SortedByRank(Insert(x, s, cheapest), cheapest)
  {
    if s == [] {
      assert Insert(x, s, cheapest) == [x];
    } else if Rank(x, cheapest) <= Rank(s[0], cheapest) {
      assert RankAtLeast(s, cheapest, Rank(x, cheapest));
      ConsSorted(x, s, cheapest);
    } else {
      var tail := s[1..];
      assert SortedByRank(tail, cheapest) by {
        forall i, j | 0 <= i < j < |tail| ensures Rank(tail[i], cheapest) <= Rank(tail[j], cheapest) {
          assert tail[i] == s[i + 1] && tail[j] == s[j + 1];
        }
      }
      assert RankAtLeast(tail, cheapest, Rank(s[0], cheapest)) by {
        forall j | 0 <= j < |tail| ensures Rank(s[0], cheapest) <= Rank(tail[j], cheapest) {
          assert tail[j] == s[j + 1];
        }
      }
      InsertSorted(x, tail, cheapest);
      InsertRankAtLeast(x, tail, cheapest, Rank(s[0], cheapest));
      ConsSorted(s[0], Insert(x, tail, cheapest), cheapest);
    }
  }

  /** The source sorts a copy with `Array.prototype.sort` and a comparator that
      never answers "equal", so the order among equal prices is not specified;
      this insertion sort fixes one such order. Only its sortedness and that it
      is a permutation are relied on. */
  function SortByPrice(s: seq<QuantityEntry>, cheapest: bool): (r: seq<QuantityEntry>)
    ensures SortedByRank(r, cheapest)
    ensures multiset(r) == multiset(s)
  {
    if s == [] then []
    else
      assert s == [s[0]] + s[1..];
      InsertSorted(s[0], SortByPrice(s[1..], cheapest), cheapest);
      Insert(s[0], SortByPrice(s[1..], cheapest), cheapest)
  }

  /** Sorted by rank means ascending price with `applyToCheapest`, descending price without it. */
  lemma SortByPriceOrder(s: seq<QuantityEntry>, cheapest: bool, i: int, j: int)
    requires 0 <= i < j < |s|
    ensures var r := SortByPrice(s, cheapest);
      |r| == |s| &&
      (cheapest ==> r[i].price <= r[j].price) &&
      (!cheapest ==> r[i].price >= r[j].price)
  {
    var r := SortByPrice(s, cheapest);
    assert |r| == |multiset(r)| == |multiset(s)| == |s|;
    assert Rank(r[i], cheapest) <= Rank(r[j], cheapest);
  }

  // ---------------------------------------------------------------------------
  // The greedy step

  /** The entries written to `matchingProducts` by util.tsx:331-345, in order:
      whole candidates while the counter exceeds them, then one copy clamped to
      the counter, after which the counter is 0 and the rest is skipped. */
  function Take(sorted: seq<QuantityEntry>, counter: int): seq<QuantityEntry> {
    if sorted == [] || counter == 0 then []
    else if counter > sorted[0].quantity then [sorted[0]] + Take(sorted[1..], counter - sorted[0].quantity)
    else [sorted[0].(quantity := counter)]
  }

  /** Writes each entry under its own id, later writes overwriting earlier ones. */
  function PutAll(m: QuantitiesById, ws: seq<QuantityEntry>): QuantitiesById
    decreases |ws|
  {
    if ws == [] then m else PutAll(Put(m, ws[0].id, ws[0]), ws[1..])
  }

  function SumQuantity(s: seq<QuantityEntry>): int {
    if s == [] then 0 else s[0].quantity + SumQuantity(s[1..])
  }

  /** `w` is the candidate `p` itself or a copy of it with a quantity no larger. */
  predicate CutFrom(w: QuantityEntry, p: QuantityEntry) {
    w == p.(quantity := w.quantity) && w.quantity <= p.quantity
  }

  /** The greedy step never writes more than `minQuantity` units, and writes
      exactly `minQuantity` when the candidates hold enough. */
  lemma {:induction false} TakeWithinMinQuantity(sorted: seq<QuantityEntry>, counter: int)
    requires counter >= 0
    ensures SumQuantity(Take(sorted, counter)) <= counter
    ensures SumQuantity(sorted) >= counter ==> SumQuantity(Take(sorted, counter)) == counter
  {
    if sorted != [] && counter != 0 && counter > sorted[0].quantity {
      TakeWithinMinQuantity(sorted[1..], counter - sorted[0].quantity);
    }
  }

  /** Each entry the greedy step writes is a candidate, or a copy of one whose
      quantity is clamped to the remaining counter. */
  lemma {:induction false} TakeCutsCandidates(sorted: seq<QuantityEntry>, counter: int)
    ensures forall w :: w in Take(sorted, counter) ==> exists p :: p in sorted && CutFrom(w, p)
  {
    if sorted == [] || counter == 0 {
    } else if counter > sorted[0].quantity {
      var rest := Take(sorted[1..], counter - sorted[0].quantity);
      TakeCutsCandidates(sorted[1..], counter - sorted[0].quantity);
      forall w | w in Take(sorted, counter) ensures exists p :: p in sorted && CutFrom(w, p) {
        if w == sorted[0] {
          assert CutFrom(w, sorted[0]);
        } else {
          assert w in rest;
          var p :| p in sorted[1..] && CutFrom(w, p);
          assert p in sorted;
        }
      }
    } else {
      assert CutFrom(sorted[0].(quantity := counter), sorted[0]);
    }
  }

  // ---------------------------------------------------------------------------
  // The matcher

  /** Matching over `groups` once the earlier groups produced `acc`. */
  function MatchFrom(cats: QuantitiesById, prods: QuantitiesById, groups: seq<ItemGroup>, cheapest: bool, acc: QuantitiesById)
    : Option<QuantitiesById>
  {
    if groups == [] then Some(acc)
    else
      var g := groups[0];
      if Counted(cats, prods, g) < g.minQuantity then None
      else MatchFrom(cats, prods, groups[1..], cheapest,
                     PutAll(acc, Take(SortByPrice(Candidates(cats, prods, g), cheapest), g.minQuantity)))
  }

  /** The result of `getMatchingPromotionProducts`: `None` stands for `null`. */
  function MatchingProducts(cats: QuantitiesById, prods: QuantitiesById, groups: seq<ItemGroup>, cheapest: bool)
    : Option<QuantitiesById>
  {
    MatchFrom(cats, prods, groups, cheapest, [])
  }

  predicate GroupFails(cats: QuantitiesById, prods: QuantitiesById, g: ItemGroup) {
    Counted(cats, prods, g) < g.minQuantity
  }

  lemma {:induction false} MatchFromFailsIff(cats: QuantitiesById, prods: QuantitiesById, groups: seq<ItemGroup>, cheapest: bool, acc: QuantitiesById)
    ensures MatchFrom(cats, prods, groups, cheapest, acc).None? <==>
            exists i :: 0 <= i < |groups| && GroupFails(cats, prods, groups[i])
  {
    if groups != [] {
      var g := groups[0];
      if !GroupFails(cats, prods, g) {
        var acc' := PutAll(acc, Take(SortByPrice(Candidates(cats, prods, g), cheapest), g.minQuantity));
        MatchFromFailsIff(cats, prods, groups[1..], cheapest, acc');
        if exists i :: 0 <= i < |groups| && GroupFails(cats, prods, groups[i]) {
          var i :| 0 <= i < |groups| && GroupFails(cats, prods, groups[i]);
          assert groups[1..][i - 1] == groups[i];
        }
        if exists i :: 0 <= i < |groups[1..]| && GroupFails(cats, prods, groups[1..][i]) {
          var i :| 0 <= i < |groups[1..]| && GroupFails(cats, prods, groups[1..][i]);
          assert groups[i + 1] == groups[1..][i];
        }
      }
    }
  }

  /** The groups are AND-ed: the match is `null` exactly when some group counts
      fewer units than its `minQuantity`; with no groups it is an empty map. */
  lemma MatchFailsIff(cats: QuantitiesById, prods: QuantitiesById, groups: seq<ItemGroup>, cheapest: bool)
    ensures MatchingProducts(cats, prods, groups, cheapest).None? <==>
            exists i :: 0 <= i < |groups| && GroupFails(cats, prods, groups[i])
    ensures groups == [] ==> MatchingProducts(cats, prods, groups, cheapest) == Some([])
  {
    MatchFromFailsIff(cats, prods, groups, cheapest, []);
  }

  /** Every slot of the map is keyed by its value's id, and the value is a
      product aggregate of the cart or a copy of one with a smaller quantity. */
  predicate DrawnFromCart(m: QuantitiesById, prods: QuantitiesById) {
    forall i :: 0 <= i < |m| ==>
      m[i].key == m[i].entry.id && exists p :: p in Values(prods) && CutFrom(m[i].entry, p)
  }

  lemma {:induction false} PutAllDrawnFromCart(m: QuantitiesById, ws: seq<QuantityEntry>, prods: QuantitiesById)
    requires DrawnFromCart(m, prods)
    requires forall w :: w in ws ==> exists p :: p in Values(prods) && CutFrom(w, p)
    ensures DrawnFromCart(PutAll(m, ws), prods)
    decreases |ws|
  {
    if ws != [] {
      var m' := Put(m, ws[0].id, ws[0]);
      assert ws[0] in ws;
      forall i | 0 <= i < |m'| ensures m'[i].key == m'[i].entry.id && exists p :: p in Values(prods) && CutFrom(m'[i].entry, p) {
        if m'[i] != Slot(ws[0].id, ws[0]) {
          var k :| 0 <= k < |m| && m[k] == m'[i];
        }
      }
      forall w | w in ws[1..] ensures exists p :: p in Values(prods) && CutFrom(w, p) {
        assert w in ws;
      }
      PutAllDrawnFromCart(m', ws[1..], prods);
    }
  }

  lemma {:induction false} MatchFromDrawnFromCart(cats: QuantitiesById, prods: QuantitiesById, groups: seq<ItemGroup>, cheapest: bool, acc: QuantitiesById)
    requires DrawnFromCart(acc, prods)
    ensures var r := MatchFrom(cats, prods, groups, cheapest, acc); r.Some? ==> DrawnFromCart(r.value, prods)
  {
    if groups != [] {
      var g := groups[0];
      if !GroupFails(cats, prods, g) {
        var cands := Candidates(cats, prods, g);
        var sorted := SortByPrice(cands, cheapest);
        var ws := Take(sorted, g.minQuantity);
        TakeCutsCandidates(sorted, g.minQuantity);
        forall w | w in ws ensures exists p :: p in Values(prods) && CutFrom(w, p) {
          var p :| p in sorted && CutFrom(w, p);
          assert p in multiset(sorted);
          assert p in cands;
        }
        PutAllDrawnFromCart(acc, ws, prods);
        MatchFromDrawnFromCart(cats, prods, groups[1..], cheapest, PutAll(acc, ws));
      }
    }
  }

  /** What the matched map holds: product aggregates of the cart, under their own
      ids, with quantities never above the aggregate's quantity. */
  lemma MatchedEntriesComeFromCart(cats: QuantitiesById, prods: QuantitiesById, groups: seq<ItemGroup>, cheapest: bool)
    ensures var r := MatchingProducts(cats, prods, groups, cheapest); r.Some? ==> DrawnFromCart(r.value, prods)
  {
    MatchFromDrawnFromCart(cats, prods, groups, cheapest, []);
  }

  /** The example of a cart holding 3 of product A (500 cents) in category C
      and a group asking for 2 units of C: 2 units of A are consumed. */
  lemma PartialConsumptionExample()
    ensures var a := QuantityEntry("A", "A", 3, 500, Some("C"));
      var cats := [Slot("C", QuantityEntry("C", "C", 3, 500, None))];
      var prods := [Slot("A", a)];
      MatchingProducts(cats, prods, [ItemGroup(2, ["C"], [])], true) == Some([Slot("A", a.(quantity := 2))])
  {
    var a := QuantityEntry("A", "A", 3, 500, Some("C"));
    var cats := [Slot("C", QuantityEntry("C", "C", 3, 500, None))];
    var prods := [Slot("A", a)];
    var g := ItemGroup(2, ["C"], []);
    assert ["C"][..0] == [];
    assert Values(prods) == [a];
    assert [a][..0] == [];
    assert Lookup(cats, "C") == Some(QuantityEntry("C", "C", 3, 500, None));
    assert InCategory([a], "C") == [a];
    assert CategoryCandidates(cats, prods, ["C"]) == [a];
    assert CategoryCount(cats, ["C"]) == 3;
    assert Counted(cats, prods, g) == 3;
    assert Candidates(cats, prods, g) == [a];
    assert SortByPrice([a], true) == [a];
    assert Take([a], 2) == [a.(quantity := 2)];
    assert PutAll([], [a.(quantity := 2)]) == [Slot("A", a.(quantity := 2))];
  }

  /** The inner loop of util.tsx:298-302: the cart's products in one category. */
  method FilterCategory(vals: seq<QuantityEntry>, categoryId: Id) returns (found: seq<QuantityEntry>)
    ensures found == InCategory(vals, categoryId)
  {
    found := [];
    var j := 0;
    while j < |vals|
      invariant 0 <= j <= |vals|
      invariant found == InCategory(vals[..j], categoryId)
    {
      assert vals[..j + 1][..j] == vals[..j];
      if vals[j].categoryId == Some(categoryId) {
        found := found + [vals[j]];
      }
      j := j + 1;
    }
    assert vals[..j] == vals;
  }

  /** The loop of util.tsx:295-313 for one group: the counted quantity and the
      candidate list, in the order the source pushes them. */
  method CollectGroup(cats: QuantitiesById, prods: QuantitiesById, g: ItemGroup) returns (counted: int, temp: seq<QuantityEntry>)
    ensures counted == Counted(cats, prods, g)
    ensures temp == Candidates(cats, prods, g)
  {
    counted := 0;
    temp := [];
    var ids := g.categoryIds;
    var i := 0;
    while i < |ids|
      invariant 0 <= i <= |ids|
      invariant counted == CategoryCount(cats, ids[..i])
      invariant temp == CategoryCandidates(cats, prods, ids[..i])
    {
      assert ids[..i + 1][..i] == ids[..i];
      var c := Lookup(cats, ids[i]);
      if c.Some? {
        counted := counted + c.value.quantity;
        var found := FilterCategory(Values(prods), c.value.id);
        temp := temp + found;
      }
      i := i + 1;
    }
    assert ids[..i] == ids;
    var pids := g.productIds;
    var categoryTemp := temp;
    var categoryCounted := counted;
    i := 0;
    while i < |pids|
      invariant 0 <= i <= |pids|
      invariant counted == categoryCounted + ProductCount(prods, pids[..i])
      invariant temp == categoryTemp + ProductCandidates(prods, pids[..i])
    {
      assert pids[..i + 1][..i] == pids[..i];
      var p := Lookup(prods, pids[i]);
      if p.Some? {
        counted := counted + p.value.quantity;
        temp := temp + [p.value];
      }
      i := i + 1;
    }
    assert pids[..i] == pids;
  }

  /** One step of the greedy loop on the candidates still to visit. */
  lemma TakeStep(r: QuantitiesById, s: seq<QuantityEntry>, counter: int)
    requires s != []
    ensures counter == 0 ==> PutAll(r, Take(s, counter)) == r && PutAll(r, Take(s[1..], counter)) == r
    ensures counter != 0 && counter > s[0].quantity ==>
              PutAll(r, Take(s, counter)) == PutAll(Put(r, s[0].id, s[0]), Take(s[1..], counter - s[0].quantity))
    ensures counter != 0 && counter <= s[0].quantity ==>
              var w := Put(r, s[0].id, s[0].(quantity := counter));
              PutAll(r, Take(s, counter)) == w && PutAll(w, Take(s[1..], 0)) == w
  {
    if counter != 0 && counter <= s[0].quantity {
      assert Take(s, counter) == [s[0].(quantity := counter)];
      assert [s[0].(quantity := counter)][1..] == [];
    }
  }

  /** One turn of the greedy loop, on the first candidate still to visit. */
  method ConsumeOne(r: QuantitiesById, s: seq<QuantityEntry>, counter: int) returns (r': QuantitiesById, counter': int)
    requires s != []
    ensures PutAll(r', Take(s[1..], counter')) == PutAll(r, Take(s, counter))
  {
    TakeStep(r, s, counter);
    r', counter' := r, counter;
    if counter != 0 {
      var p := s[0];
      if counter > p.quantity {
        r' := Put(r, p.id, p);
        counter' := counter - p.quantity;
      } else {
        r' := Put(r, p.id, p.(quantity := counter));
        counter' := 0;
      }
    }
  }

  /** The greedy loop of util.tsx:331-345 writing into `matching`. */
  method ConsumeMinQuantity(sorted: seq<QuantityEntry>, minQuantity: int, matching: QuantitiesById) returns (r: QuantitiesById)
    ensures r == PutAll(matching, Take(sorted, minQuantity))
  {
    r := matching;
    var counter := minQuantity;
    var i := 0;
    assert sorted[0..] == sorted;
    while i < |sorted|
      invariant 0 <= i <= |sorted|
      invariant PutAll(r, Take(sorted[i..], counter)) == PutAll(matching, Take(sorted, minQuantity))
    {
      assert sorted[i..][1..] == sorted[i + 1..];
      r, counter := ConsumeOne(r, sorted[i..], counter);
      i := i + 1;
    }
    assert sorted[i..] == [];
  }

  /** `getMatchingPromotionProducts` (util.tsx:276-350). */
  method GetMatchingPromotionProducts(cats: QuantitiesById, prods: QuantitiesById, groups: seq<ItemGroup>, cheapest: bool)
    returns (r: Option<QuantitiesById>)
    ensures r == MatchingProducts(cats, prods, groups, cheapest)
    ensures r.None? <==> exists i :: 0 <= i < |groups| && GroupFails(cats, prods, groups[i])
    ensures groups == [] ==> r == Some([])
  {
    var matching: QuantitiesById := [];
    var matchingCondition := true;
    var i := 0;
    while i < |groups|
      invariant 0 <= i <= |groups|
      invariant matchingCondition ==>
        MatchFrom(cats, prods, groups[i..], cheapest, matching) == MatchingProducts(cats, prods, groups, cheapest)
      invariant !matchingCondition ==> MatchingProducts(cats, prods, groups, cheapest) == None
    {
      if matchingCondition {
        var g := groups[i];
        assert groups[i..][1..] == groups[i + 1..];
        var counted, temp := CollectGroup(cats, prods, g);
        if counted < g.minQuantity {
          matchingCondition := false;
        } else {
          var sorted := SortByPrice(temp, cheapest);
          matching := ConsumeMinQuantity(sorted, g.minQuantity, matching);
        }
      }
      i := i + 1;
    }
    r := if matchingCondition then Some(matching) else None;
    MatchFailsIff(cats, prods, groups, cheapest);
  }

  // ---------------------------------------------------------------------------
  // The discount calculator

  /** EDiscountType. */
  datatype DiscountType = Fixed | Percentage | SetPrice

  /** IGET_DASHBOARD_PROMOTION_DISCOUNT; `items` are the nested groups of a
      related-items rule. */
  datatype DiscountRule = DiscountRule(kind: DiscountType, amount: int, items: Option<seq<ItemGroup>>)

  /** Σ price·quantity over the values of a matched map. */
  function Discountable(m: QuantitiesById): int {
    if m == [] then 0 else Discountable(m[..|m| - 1]) + Last(m).entry.price * Last(m).entry.quantity
  }

  /** The candidate discount of one rule against the discountable amount `base`. */
  function RuleAmount(rule: DiscountRule, base: int): real {
    match rule.kind
    case Fixed => rule.amount as real
    case Percentage => (base * rule.amount) as real / 100.0
    case SetPrice => (base - rule.amount) as real
  }

  /** One rule applied when the shared discountable amount is `base`: its
      candidate (`None` when its nested match fails and it is skipped) and the
      discountable amount the following rules see. */
  function RuleStep(cats: QuantitiesById, prods: QuantitiesById, rule: DiscountRule, base: int): (Option<real>, int) {
    if rule.items.None? then (Some(RuleAmount(rule, base)), base)
    else
      var m := MatchingProducts(cats, prods, rule.items.value, false);
      if m.None? then (None, 0)
      else
        var b := Discountable(m.value);
        (Some(RuleAmount(rule, b)), b)
  }

  /** The candidate of each rule, in order. */
  function RuleCandidates(cats: QuantitiesById, prods: QuantitiesById, rules: seq<DiscountRule>, base: int): (r: seq<Option<real>>)
    ensures |r| == |rules|
  {
    if rules == [] then []
    else
      var step := RuleStep(cats, prods, rules[0], base);
      [step.0] + RuleCandidates(cats, prods, rules[1..], step.1)
  }

  /** The running maximum of util.tsx:372-407 from `best` on. */
  function MaxFrom(cats: QuantitiesById, prods: QuantitiesById, rules: seq<DiscountRule>, base: int, best: real): real {
    if rules == [] then best
    else
      var step := RuleStep(cats, prods, rules[0], base);
      var best' := if step.0.Some? && best < step.0.value then step.0.value else best;
      MaxFrom(cats, prods, rules[1..], step.1, best')
  }

  /** The discountable amount the calculator starts from: a truthy `total`,
      otherwise the matched products' amount; `None` when neither is given and
      the calculator returns 0 at once. */
  function InitialBase(matching: Option<QuantitiesById>, total: Option<int>): Option<int> {
    if total.Some? && total.value != 0 then Some(total.value)
    else if matching.None? then None
    else Some(Discountable(matching.value))
  }

  /** The result of `getMaxDiscountedAmount`. */
  function MaxDiscountedAmount(cats: QuantitiesById, prods: QuantitiesById, rules: seq<DiscountRule>,
                               matching: Option<QuantitiesById>, total: Option<int>): real
  {
    var base := InitialBase(matching, total);
    if base.None? then 0.0 else MaxFrom(cats, prods, rules, base.value, 0.0)
  }

  /** No candidate exceeds `r`. */
  predicate AtMost(cs: seq<Option<real>>, r: real) {
    forall i :: 0 <= i < |cs| && cs[i].Some? ==> cs[i].value <= r
  }

  /** `r` is one of the candidates. */
  predicate Attained(cs: seq<Option<real>>, r: real) {
    exists i :: 0 <= i < |cs| && cs[i] == Some(r)
  }

  lemma {:induction false} MaxFromIsMaximum(cats: QuantitiesById, prods: QuantitiesById, rules: seq<DiscountRule>, base: int, best: real)
    ensures var r := MaxFrom(cats, prods, rules, base, best);
      var cs := RuleCandidates(cats, prods, rules, base);
      r >= best && AtMost(cs, r) && (r == best || Attained(cs, r))
  {
    if rules != [] {
      var step := RuleStep(cats, prods, rules[0], base);
      var best' := if step.0.Some? && best < step.0.value then step.0.value else best;
      MaxFromIsMaximum(cats, prods, rules[1..], step.1, best');
      var r := MaxFrom(cats, prods, rules, base, best);
      var cs := RuleCandidates(cats, prods, rules, base);
      var rest := RuleCandidates(cats, prods, rules[1..], step.1);
      assert cs == [step.0] + rest;
      assert r == MaxFrom(cats, prods, rules[1..], step.1, best');
      assert AtMost(rest, r);
      forall i | 0 <= i < |cs| && cs[i].Some? ensures cs[i].value <= r {
        if i > 0 {
          assert cs[i] == rest[i - 1];
        }
      }
      if r != best {
        if r == best' {
          assert cs[0] == Some(r);
        } else {
          var k :| 0 <= k < |rest| && rest[k] == Some(r);
          assert cs[k + 1] == Some(r);
        }
      }
    }
  }

  /** The calculator returns max(0, every rule's candidate): never negative, at
      least every candidate, and either 0 or one of the candidates. */
  lemma MaxDiscountIsLargestCandidate(cats: QuantitiesById, prods: QuantitiesById, rules: seq<DiscountRule>,
                                      matching: Option<QuantitiesById>, total: Option<int>)
    ensures var r := MaxDiscountedAmount(cats, prods, rules, matching, total);
      var base := InitialBase(matching, total);
      r >= 0.0 &&
      (base.None? ==> r == 0.0) &&
      (base.Some? ==>
        var cs := RuleCandidates(cats, prods, rules, base.value);
        AtMost(cs, r) && (r == 0.0 || Attained(cs, r)))
  {
    var base := InitialBase(matching, total);
    if base.Some? {
      MaxFromIsMaximum(cats, prods, rules, base.value, 0.0);
    }
  }

  /** An entire-order promotion of 10 percent on a 2000-cent order discounts 200 cents. */
  lemma EntireOrderPercentageExample()
    ensures MaxDiscountedAmount([], [], [DiscountRule(Percentage, 10, None)], None, Some(2000)) == 200.0
  {
  }

  /** Rules are alternatives, not summed: FIXED 100 against PERCENTAGE 5 on a
      3000-cent base gives 150. */
  lemma BestOfTwoRulesExample()
    ensures MaxDiscountedAmount([], [], [DiscountRule(Fixed, 100, None), DiscountRule(Percentage, 5, None)], None, Some(3000)) == 150.0
  {
  }

  /** The loop of util.tsx:367-369 and 385-387. */
  method SumDiscountable(m: QuantitiesById) returns (s: int)
    ensures s == Discountable(m)
  {
    s := 0;
    var i := 0;
    while i < |m|
      invariant 0 <= i <= |m|
      invariant s == Discountable(m[..i])
    {
      assert m[..i + 1][..i] == m[..i];
      s := s + m[i].entry.price * m[i].entry.quantity;
      i := i + 1;
    }
    assert m[..i] == m;
  }

  /** `getMaxDiscountedAmount` (util.tsx:352-410). */
  method GetMaxDiscountedAmount(cats: QuantitiesById, prods: QuantitiesById, discounts: seq<DiscountRule>,
                                matchingProducts: Option<QuantitiesById>, total: Option<int>) returns (r: real)
    ensures r == MaxDiscountedAmount(cats, prods, discounts, matchingProducts, total)
    ensures r >= 0.0
  {
    var maxDiscountedAmount := 0.0;
    var totalDiscountableAmount := 0;
    if total.Some? && total.value != 0 {
      totalDiscountableAmount := total.value;
    } else {
      if matchingProducts.None? {
        return 0.0;
      }
      totalDiscountableAmount := SumDiscountable(matchingProducts.value);
    }
    ghost var base0 := totalDiscountableAmount;
    var i := 0;
    while i < |discounts|
      invariant 0 <= i <= |discounts|
      invariant MaxFrom(cats, prods, discounts[i..], totalDiscountableAmount, maxDiscountedAmount)
             == MaxFrom(cats, prods, discounts, base0, 0.0)
    {
      var discount := discounts[i];
      assert discounts[i..][1..] == discounts[i + 1..];
      var skipped := false;
      if discount.items.Some? {
        totalDiscountableAmount := 0;
        var matchingDiscountProducts := GetMatchingPromotionProducts(cats, prods, discount.items.value, false);
        if matchingDiscountProducts.None? {
          skipped := true;
        } else {
          totalDiscountableAmount := SumDiscountable(matchingDiscountProducts.value);
        }
      }
      if !skipped {
        var discountedAmount: real;
        match discount.kind {
          case Fixed => discountedAmount := discount.amount as real;
          case Percentage => discountedAmount := (totalDiscountableAmount * discount.amount) as real / 100.0;
          case SetPrice => discountedAmount := (totalDiscountableAmount - discount.amount) as real;
        }
        if maxDiscountedAmount < discountedAmount {
          maxDiscountedAmount := discountedAmount;
        }
      }
      i := i + 1;
    }
    r := maxDiscountedAmount;
    MaxDiscountIsLargestCandidate(cats, prods, discounts, matchingProducts, total);
  }
}
