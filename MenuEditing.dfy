/** The menu editor (`EditMenuView` and its `AddProductSheet`): deleting and
 *  moving products inside a category section, adding a product, and
 *  renumbering the whole menu. The view's two state arrays are the fields of
 *  `MenuEditor`; the products are values, so the writes the view makes through
 *  shared `Product` references become writes to the list. */
module MenuEditing {
  import opened Text
  import opened Lists
  import opened Sorting
  import opened Products

  // ----- Category sections -----------------------------------------------------

  function InCategory(category: string): Product -> bool {
    (p: Product) => p.priceCategory == category
  }

  /** The products a category section shows: `products.filter { $0.priceCategory == category }`. */
  function ByCategory(products: seq<Product>, category: string): seq<Product> {
    Filter(products, InCategory(category))
  }

  function Ids(products: seq<Product>): (r: seq<Uuid>)
    ensures |r| == |products|
    ensures forall i :: 0 <= i < |r| ==> r[i] == products[i].id
  {
    seq(|products|, i requires 0 <= i < |products| => products[i].id)
  }

  predicate UniqueIds(products: seq<Product>) {
    forall i, j :: 0 <= i < j < |products| ==> products[i].id != products[j].id
  }

  /** An `IndexSet` of rows in a section of `count` rows: ascending offsets. */
  predicate ValidOffsets(offsets: seq<nat>, count: nat) {
    (forall t :: 0 <= t < |offsets| ==> offsets[t] < count)
    && (forall t, u :: 0 <= t < u < |offsets| ==> offsets[t] < offsets[u])
  }

  // ----- deleteItem ----------------------------------------------------------

  function RemoveAt<T>(s: seq<T>, i: nat): (r: seq<T>)
    requires i < |s|
    ensures |r| == |s| - 1
  {
    s[..i] + s[i + 1..]
  }

  /** The positions in `products` of the selected rows: for each offset, the
   *  first product with the id of that row. */
  function GlobalPositions(products: seq<Product>, category: string, offsets: seq<nat>): (r: seq<nat>)
    requires ValidOffsets(offsets, |ByCategory(products, category)|)
    ensures |r| == |offsets|
    ensures forall t :: 0 <= t < |r| ==>
      r[t] < |products| && products[r[t]].id == ByCategory(products, category)[offsets[t]].id
  {
    var section := ByCategory(products, category);
    assert forall t :: 0 <= t < |offsets| ==> section[offsets[t]].id in Ids(products) by {
      forall t | 0 <= t < |offsets| ensures section[offsets[t]].id in Ids(products) {
        var p := section[offsets[t]];
        assert p in products;
        var i :| 0 <= i < |products| && products[i] == p;
        assert Ids(products)[i] == p.id;
      }
    }
    seq(|offsets|, t requires 0 <= t < |offsets| => IndexOf(Ids(products), section[offsets[t]].id))
  }

  /** The removals stay inside the list as it shrinks. */
  predicate RemovalsInBounds(s: seq<Product>, positions: seq<nat>) {
    positions == [] || (positions[0] < |s| && RemovalsInBounds(RemoveAt(s, positions[0]), positions[1..]))
  }

  /** `indexes.forEach { products.remove(at: $0) }`: one removal after the other,
   *  each on the list the previous ones left. */
  function RemoveEach(s: seq<Product>, positions: seq<nat>): seq<Product>
    requires RemovalsInBounds(s, positions)
  {
    if positions == [] then s else RemoveEach(RemoveAt(s, positions[0]), positions[1..])
  }

  /** `deleteItem` as written: the positions are computed first and then removed
   *  in ascending order, so every removal shifts the positions after it. */
  function DeleteAsWritten(products: seq<Product>, category: string, offsets: seq<nat>): seq<Product>
    requires ValidOffsets(offsets, |ByCategory(products, category)|)
    requires RemovalsInBounds(products, GlobalPositions(products, category, offsets))
  {
    RemoveEach(products, GlobalPositions(products, category, offsets))
  }

  /** The ids of the selected rows. */
  function SelectedIds(products: seq<Product>, category: string, offsets: seq<nat>): set<Uuid>
    requires ValidOffsets(offsets, |ByCategory(products, category)|)
  {
    var section := ByCategory(products, category);
    set t | 0 <= t < |offsets| :: section[offsets[t]].id
  }

  function Unselected(ids: set<Uuid>): Product -> bool {
    (p: Product) => p.id !in ids
  }

  /** What deleting the selected rows is meant to do: remove exactly the
   *  selected products. */
  function DeleteSelected(products: seq<Product>, category: string, offsets: seq<nat>): seq<Product>
    requires ValidOffsets(offsets, |ByCategory(products, category)|)
  {
    Filter(products, Unselected(SelectedIds(products, category, offsets)))
  }

  /** Deleting removes every selected product and keeps every other one, in order. */
  lemma DeleteSelectedContents(products: seq<Product>, category: string, offsets: seq<nat>)
    requires ValidOffsets(offsets, |ByCategory(products, category)|)
    ensures var r := DeleteSelected(products, category, offsets);
      && IsSubsequence(r, products)
      && (forall p :: p in r <==> p in products && p.id !in SelectedIds(products, category, offsets))
      && (forall t :: 0 <= t < |offsets| ==> ByCategory(products, category)[offsets[t]] !in r)
  {
    var ids := SelectedIds(products, category, offsets);
    FilterContents(products, Unselected(ids));
    FilterIsSubsequence(products, Unselected(ids));
    var section := ByCategory(products, category);
    assert forall t :: 0 <= t < |offsets| ==> section[offsets[t]].id in ids;
  }

  /** Deleting a single row removes exactly the product that row shows, and the
   *  code as written agrees with the intended deletion. */
  lemma DeleteOne(products: seq<Product>, category: string, k: nat)
    requires UniqueIds(products)
    requires k < |ByCategory(products, category)|
    ensures var g := GlobalPositions(products, category, [k])[0];
      && products[g] == ByCategory(products, category)[k]
      && RemovalsInBounds(products, [g])
      && DeleteAsWritten(products, category, [k]) == RemoveAt(products, g)
      && DeleteSelected(products, category, [k]) == RemoveAt(products, g)
  {
    var section := ByCategory(products, category);
    assert ValidOffsets([k], |section|);
    var positions := GlobalPositions(products, category, [k]);
    var g := positions[0];
    var p := section[k];
    assert products[g].id == p.id;
    assert p in products;
    var i :| 0 <= i < |products| && products[i] == p;
    assert g == i;
    assert positions[1..] == [];
    assert RemovalsInBounds(RemoveAt(products, g), []);
    assert RemoveEach(products, positions) == RemoveEach(RemoveAt(products, g), []);
    assert SelectedIds(products, category, [k]) == {p.id};
    FilterOneOut(products, Unselected({p.id}), g);
  }

  /** Several selected rows: the shifted positions remove the wrong products.
   *  With three products of one category and the first two rows selected, the
   *  code removes the first and then the third, and keeps the second. */
  lemma DeleteAsWrittenShifts(a: Product, b: Product, c: Product, category: string)
    requires a.priceCategory == category && b.priceCategory == category && c.priceCategory == category
    requires a.id != b.id && b.id != c.id && a.id != c.id
    ensures ValidOffsets([0, 1], |ByCategory([a, b, c], category)|)
    ensures RemovalsInBounds([a, b, c], GlobalPositions([a, b, c], category, [0, 1]))
    ensures DeleteAsWritten([a, b, c], category, [0, 1]) == [b]
    ensures DeleteSelected([a, b, c], category, [0, 1]) == [c]
  {
    var s := [a, b, c];
    FilterAll(s, InCategory(category));
    assert ByCategory(s, category) == s;
    ShiftPositions(a, b, c, category);
    assert RemoveAt(s, 0) == [b, c];
    assert RemoveAt([b, c], 1) == [b];
    assert RemovalsInBounds([b], []);
    assert RemovalsInBounds([b, c], [1]);
    assert RemoveEach([b, c], [1]) == [b];
    assert [0, 1][1..] == [1];
    ShiftIntended(a, b, c, category);
  }

  /** Selecting the second and the third row traps: after the removal at 1 the
   *  list has two products and the removal at 2 is out of range. */
  lemma DeleteAsWrittenTraps(a: Product, b: Product, c: Product, category: string)
    requires a.priceCategory == category && b.priceCategory == category && c.priceCategory == category
    requires a.id != b.id && b.id != c.id && a.id != c.id
    ensures ValidOffsets([1, 2], |ByCategory([a, b, c], category)|)
    ensures GlobalPositions([a, b, c], category, [1, 2]) == [1, 2]
    ensures !RemovalsInBounds([a, b, c], GlobalPositions([a, b, c], category, [1, 2]))
  {
    var s := [a, b, c];
    FilterAll(s, InCategory(category));
    assert ByCategory(s, category) == s;
    var positions := GlobalPositions(s, category, [1, 2]);
    assert Ids(s) == [a.id, b.id, c.id];
    assert positions[0] == IndexOf(Ids(s), b.id) == 1 by {
      assert Ids(s)[1..] == [b.id, c.id];
    }
    assert positions[1] == IndexOf(Ids(s), c.id) == 2 by {
      assert Ids(s)[1..] == [b.id, c.id];
      assert Ids(s)[1..][1..] == [c.id];
    }
    assert RemoveAt(s, 1) == [a, c];
    assert [1, 2][1..] == [2];
  }

  lemma ShiftPositions(a: Product, b: Product, c: Product, category: string)
    requires ByCategory([a, b, c], category) == [a, b, c]
    requires a.id != b.id && b.id != c.id && a.id != c.id
    ensures ValidOffsets([0, 1], |ByCategory([a, b, c], category)|)
    ensures GlobalPositions([a, b, c], category, [0, 1]) == [0, 1]
  {
    var s := [a, b, c];
    var positions := GlobalPositions(s, category, [0, 1]);
    assert Ids(s) == [a.id, b.id, c.id];
    assert positions[0] == IndexOf(Ids(s), a.id) == 0;
    assert positions[1] == IndexOf(Ids(s), b.id) == 1 by {
      assert Ids(s)[1..] == [b.id, c.id];
    }
  }

  lemma ShiftIntended(a: Product, b: Product, c: Product, category: string)
    requires ByCategory([a, b, c], category) == [a, b, c]
    requires a.id != b.id && b.id != c.id && a.id != c.id
    ensures ValidOffsets([0, 1], |ByCategory([a, b, c], category)|)
    ensures DeleteSelected([a, b, c], category, [0, 1]) == [c]
  {
    var offsets: seq<nat> := [0, 1];
    var section := ByCategory([a, b, c], category);
    assert section[offsets[0]].id == a.id && section[offsets[1]].id == b.id;
    assert a.id in SelectedIds([a, b, c], category, offsets);
    assert b.id in SelectedIds([a, b, c], category, offsets);
    assert SelectedIds([a, b, c], category, offsets) == {a.id, b.id};
    var keep := Unselected({a.id, b.id});
    assert Filter([c], keep) == [c];
    assert Filter([b, c], keep) == Filter([c], keep) by { assert [b, c][1..] == [c]; }
    assert Filter([a, b, c], keep) == Filter([b, c], keep) by { assert [a, b, c][1..] == [b, c]; }
  }

  function NotCategory(category: string): string -> bool {
    (c: string) => c != category
  }

  /** The category list after a deletion: the category goes (`removeAll`) exactly
   *  when its section is empty. */
  function CategoriesAfterDelete(categories: seq<string>, products: seq<Product>, category: string): seq<string> {
    if ByCategory(products, category) == [] then Filter(categories, NotCategory(category)) else categories
  }

  /** After a deletion the category is listed iff it was listed and still has a
   *  product; every other category is listed as before, in the same order. */
  lemma CategoriesAfterDeleteContents(categories: seq<string>, products: seq<Product>, category: string)
    ensures var r := CategoriesAfterDelete(categories, products, category);
      && IsSubsequence(r, categories)
      && (category in r <==> category in categories && exists p :: p in products && p.priceCategory == category)
      && (forall c :: c != category ==> (c in r <==> c in categories))
  {
    FilterContents(categories, NotCategory(category));
    FilterContents(products, InCategory(category));
    FilterIsSubsequence(categories, NotCategory(category));
    if ByCategory(products, category) != [] {
      var p := ByCategory(products, category)[0];
      assert p in ByCategory(products, category);
      IsSubsequenceReflexive(categories);
    }
  }

  lemma {:induction false} IsSubsequenceReflexive<T>(s: seq<T>)
    ensures IsSubsequence(s, s)
  {
    if s != [] {
      IsSubsequenceReflexive(s[1..]);
    }
  }

  // ----- moveItem --------------------------------------------------------------

  /** The elements of `s` at the positions `keep` accepts, in order. */
  function Pick<T>(s: seq<T>, keep: nat -> bool): (r: seq<T>)
    ensures |r| <= |s|
  {
    if s == [] then []
    else Pick(s[..|s| - 1], keep) + (if keep(|s| - 1) then [s[|s| - 1]] else [])
  }

  function Unmoved(sources: set<nat>, below: bool, to: nat): nat -> bool {
    (i: nat) => i !in sources && (i < to) == below
  }

  function Among(sources: set<nat>): nat -> bool {
    (i: nat) => i in sources
  }

  /** `move(fromOffsets: sources, toOffset: to)`: the elements at `sources` are
   *  taken out and put back, in their order, just before the element that was at
   *  position `to`. */
  function Moved<T>(s: seq<T>, sources: set<nat>, to: nat): seq<T> {
    Pick(s, Unmoved(sources, true, to)) + Pick(s, Among(sources)) + Pick(s, Unmoved(sources, false, to))
  }

  /** Three tests that split the positions between them pick all of `s`. */
  lemma {:induction false} PickPartition<T>(s: seq<T>, a: nat -> bool, b: nat -> bool, c: nat -> bool)
    requires forall i :: 0 <= i < |s| ==> (if a(i) then 1 else 0) + (if b(i) then 1 else 0) + (if c(i) then 1 else 0) == 1
    ensures multiset(Pick(s, a)) + multiset(Pick(s, b)) + multiset(Pick(s, c)) == multiset(s)
  {
    if s != [] {
      var init, x, n := s[..|s| - 1], s[|s| - 1], |s| - 1;
      PickPartition(init, a, b, c);
      assert s == init + [x];
      assert multiset(s) == multiset(init) + multiset{x};
      PickLast(s, a);
      PickLast(s, b);
      PickLast(s, c);
    }
  }

  lemma PickLast<T>(s: seq<T>, keep: nat -> bool)
    requires s != []
    ensures multiset(Pick(s, keep)) ==
      multiset(Pick(s[..|s| - 1], keep)) + (if keep(|s| - 1) then multiset{s[|s| - 1]} else multiset{})
  {
  }

  /** Moving rows rearranges the list and loses or duplicates nothing. */
  lemma MovedIsPermutation<T>(s: seq<T>, sources: set<nat>, to: nat)
    ensures multiset(Moved(s, sources, to)) == multiset(s)
    ensures |Moved(s, sources, to)| == |s|
  {
    PickPartition(s, Unmoved(sources, true, to), Among(sources), Unmoved(sources, false, to));
    assert |Moved(s, sources, to)| == |multiset(Moved(s, sources, to))|;
  }

  /** `firstIndex { $0.priceCategory == category } ?? 0`. */
  function CategoryStart(products: seq<Product>, category: string): (g: nat)
    ensures g <= |products|
    ensures category in PriceCategories(products) ==>
      g < |products| && products[g].priceCategory == category
      && forall j :: 0 <= j < g ==> products[j].priceCategory != category
    ensures category !in PriceCategories(products) ==> g == 0
  {
    var k := IndexOf(PriceCategories(products), category);
    if k < |products| then k else 0
  }

  /** The rows of a section, shifted by the position where the section starts. */
  function Sources(offsets: seq<nat>, start: nat): set<nat> {
    set t | 0 <= t < |offsets| :: offsets[t] + start
  }

  // ----- generateNewID -----------------------------------------------------------

  /** The order `sortPriceCategoriesList` sorts by: descending by a price key. */
  function Descending(key: string -> real): (string, string) -> bool {
    (a, b) => key(a) > key(b)
  }

  lemma DescendingIsStrict(key: string -> real)
    ensures StrictWeakOrder(Descending(key))
  {
  }

  /** `sortPriceCategoriesList`: the categories sorted by descending key. */
  function SortPriceCategories(categories: seq<string>, key: string -> real): (r: seq<string>)
    ensures multiset(r) == multiset(categories)
    ensures forall i, j :: 0 <= i < j < |r| ==> key(r[i]) >= key(r[j])
  {
    DescendingIsStrict(key);
    StrictWeakEverywhere(categories, Descending(key));
    SortSorted(categories, Descending(key));
    Sort(categories, Descending(key))
  }

  /** The width of the numbers for `count` items: `max(String(count - 1).count, 4)`. */
  function IdWidth(count: int): nat {
    var d := |IntToString(count - 1)|;
    if d > 4 then d else 4
  }

  /** The number of the item at position `index` of `count`, counted from the end,
   *  zero-padded: `String(format: "%0Nd", …)` over `enumerated().reversed()`. */
  function Code(index: nat, count: nat): string
    requires index < count
  {
    ZeroPad(count - 1 - index, IdWidth(count))
  }

  /** A code has the width `IdWidth(count)`, at least four, and reads back as the
   *  reversed position. */
  lemma CodeValue(index: nat, count: nat)
    requires index < count
    ensures |Code(index, count)| == IdWidth(count) >= 4
    ensures DigitsValue(Code(index, count)) == count - 1 - index
  {
    DigitsMonotone(count - 1 - index, count - 1);
    ZeroPadRoundTrip(count - 1 - index, IdWidth(count));
  }

  lemma CodeInjective(i: nat, j: nat, count: nat)
    requires i < count && j < count && i != j
    ensures Code(i, count) != Code(j, count)
  {
    CodeValue(i, count);
    CodeValue(j, count);
  }

  /** How many of the first `i` labels are `name`. */
  function Occurrences(labels: seq<string>, i: nat, name: string): nat
    requires i <= |labels|
  {
    if i == 0 then 0 else Occurrences(labels, i - 1, name) + (if labels[i - 1] == name then 1 else 0)
  }

  lemma {:induction false} OccurrencesMonotone(labels: seq<string>, i: nat, j: nat, name: string)
    requires i <= j <= |labels|
    ensures Occurrences(labels, i, name) <= Occurrences(labels, j, name)
  {
    if i < j {
      OccurrencesMonotone(labels, i, j - 1, name);
    }
  }

  /** How many products of a category come before position `i`. */
  function Rank(products: seq<Product>, i: nat, category: string): nat
    requires i <= |products|
  {
    Occurrences(PriceCategories(products), i, category)
  }

  /** How many products a category has: `productList.count`. */
  function CategorySize(products: seq<Product>, category: string): nat {
    Occurrences(PriceCategories(products), |products|, category)
  }

  lemma RankStep(products: seq<Product>, i: nat, category: string)
    requires i < |products|
    ensures Rank(products, i + 1, category)
      == Rank(products, i, category) + (if products[i].priceCategory == category then 1 else 0)
    ensures Rank(products, i + 1, category) <= CategorySize(products, category)
  {
    OccurrencesMonotone(PriceCategories(products), i + 1, |products|, category);
  }

  lemma {:induction false} SectionPrefixSize(products: seq<Product>, i: nat, category: string)
    requires i <= |products|
    ensures |ByCategory(products[..i], category)| == Rank(products, i, category)
  {
    if i > 0 {
      SectionPrefixSize(products, i - 1, category);
      assert products[..i] == products[..i - 1] + [products[i - 1]];
      FilterAppend(products[..i - 1], [products[i - 1]], InCategory(category));
      assert PriceCategories(products)[i - 1] == products[i - 1].priceCategory;
    }
  }

  /** The rank is the product's row in its section, and the category size is
   *  the number of rows: `productList.enumerated()` and `productList.count`. */
  lemma RankIsSectionRow(products: seq<Product>, i: nat)
    requires i < |products|
    ensures var category := products[i].priceCategory;
      && CategorySize(products, category) == |ByCategory(products, category)|
      && Rank(products, i, category) < |ByCategory(products, category)|
      && ByCategory(products, category)[Rank(products, i, category)] == products[i]
  {
    var category := products[i].priceCategory;
    SectionPrefixSize(products, i, category);
    SectionPrefixSize(products, |products|, category);
    assert products[..|products|] == products;
    assert products == products[..i] + products[i..];
    FilterAppend(products[..i], products[i..], InCategory(category));
    assert products[i..][0] == products[i];
  }

  /** Products of one category have strictly increasing ranks. */
  lemma {:induction false} RankIncreases(products: seq<Product>, i: nat, j: nat, category: string)
    requires i < j < |products| && products[i].priceCategory == category
    ensures Rank(products, i, category) < Rank(products, j, category)
  {
    RankStep(products, j - 1, category);
    if i < j - 1 {
      RankIncreases(products, i, j - 1, category);
    }
  }

  /** The product number the code gives the product at position `i`. */
  function ProductCode(products: seq<Product>, i: nat): string
    requires i < |products|
  {
    var category := products[i].priceCategory;
    RankStep(products, i, category);
    Code(Rank(products, i, category), CategorySize(products, category))
  }

  /** One pass of the outer loop: every product of `category` gets the number
   *  `categoryCode-productCode`; nothing else changes. */
  function Renumber(products: seq<Product>, category: string, categoryCode: string): (r: seq<Product>)
    ensures |r| == |products|
    ensures PriceCategories(r) == PriceCategories(products)
    ensures forall i :: 0 <= i < |r| ==> r[i] == RenumberedAt(products, category, categoryCode, i)
  {
    seq(|products|, i requires 0 <= i < |products| => RenumberedAt(products, category, categoryCode, i))
  }

  function RenumberedAt(products: seq<Product>, category: string, categoryCode: string, i: nat): (p: Product)
    requires i < |products|
    ensures p.priceCategory == products[i].priceCategory
  {
    if products[i].priceCategory == category
    then products[i].(productID := categoryCode + "-" + ProductCode(products, i))
    else products[i]
  }

  /** The products after the outer loop has handled the first `k` categories. */
  function RenumberAll(products: seq<Product>, categories: seq<string>, k: nat): (r: seq<Product>)
    requires k <= |categories|
    ensures |r| == |products|
    ensures PriceCategories(r) == PriceCategories(products)
  {
    if k == 0 then products
    else Renumber(RenumberAll(products, categories, k - 1), categories[k - 1], Code(k - 1, |categories|))
  }

  /** The position of the last `x` in `s`. */
  function LastIndexOf<T(==)>(s: seq<T>, x: T): (k: nat)
    requires x in s
    ensures k < |s| && s[k] == x
    ensures forall j :: k < j < |s| ==> s[j] != x
  {
    if s[|s| - 1] == x then |s| - 1 else LastIndexOf(s[..|s| - 1], x)
  }

  /** The number `generateNewID` gives the product at position `i`: the code of
   *  the last place its category holds in the sorted list, a dash, and its own
   *  code within the category. */
  function AssignedId(products: seq<Product>, categories: seq<string>, i: nat): string
    requires i < |products| && products[i].priceCategory in categories
  {
    Code(LastIndexOf(categories, products[i].priceCategory), |categories|) + "-" + ProductCode(products, i)
  }

  lemma {:induction false} RenumberAllAt(products: seq<Product>, categories: seq<string>, k: nat, i: nat)
    requires k <= |categories| && i < |products|
    ensures var c := products[i].priceCategory;
      RenumberAll(products, categories, k)[i]
        == if c in categories[..k]
           then products[i].(productID := Code(LastIndexOf(categories[..k], c), |categories|) + "-" + ProductCode(products, i))
           else products[i]
  {
    if k > 0 {
      RenumberAllAt(products, categories, k - 1, i);
      var before := RenumberAll(products, categories, k - 1);
      var last, code := categories[k - 1], Code(k - 1, |categories|);
      SameCategoriesSameCode(before, products, i);
      LastIndexOfPrefix(categories, k, products[i].priceCategory);
      assert RenumberAll(products, categories, k)[i] == RenumberedAt(before, last, code, i);
      if products[i].priceCategory == last {
        assert RenumberedAt(before, last, code, i) == before[i].(productID := code + "-" + ProductCode(products, i));
      } else {
        assert RenumberedAt(before, last, code, i) == before[i];
      }
    }
  }

  /** The product codes depend only on the categories of the products. */
  lemma SameCategoriesSameCode(a: seq<Product>, b: seq<Product>, i: nat)
    requires PriceCategories(a) == PriceCategories(b) && i < |a|
    ensures a[i].priceCategory == b[i].priceCategory
    ensures ProductCode(a, i) == ProductCode(b, i)
  {
    assert PriceCategories(a)[i] == PriceCategories(b)[i];
  }

  lemma LastIndexOfPrefix<T>(s: seq<T>, k: nat, x: T)
    requires 0 < k <= |s|
    ensures x in s[..k] <==> x == s[k - 1] || x in s[..k - 1]
    ensures x != s[k - 1] && x in s[..k - 1] ==> LastIndexOf(s[..k], x) == LastIndexOf(s[..k - 1], x)
  {
    assert s[..k] == s[..k - 1] + [s[k - 1]];
    assert s[..k][..k - 1] == s[..k - 1];
  }

  /** What renumbering does to each product: a product whose category is listed
   *  gets `AssignedId`, every other product keeps its number, and nothing but
   *  the number changes. */
  lemma RenumberedProduct(products: seq<Product>, categories: seq<string>, i: nat)
    requires i < |products|
    ensures var r := RenumberAll(products, categories, |categories|);
      r[i] == if products[i].priceCategory in categories
              then products[i].(productID := AssignedId(products, categories, i))
              else products[i]
  {
    RenumberAllAt(products, categories, |categories|, i);
    assert categories[..|categories|] == categories;
  }

  /** Renumbering changes no price, so no two prices of one value appear that
   *  were not there before. */
  lemma RenumberKeepsPrices(products: seq<Product>, categories: seq<string>)
    ensures var r := RenumberAll(products, categories, |categories|);
      && (forall i :: 0 <= i < |r| ==> r[i].price == products[i].price)
      && (DistinctPriceValues(products) ==> DistinctPriceValues(r))
  {
    var r := RenumberAll(products, categories, |categories|);
    forall i | 0 <= i < |r| ensures r[i].price == products[i].price {
      RenumberedProduct(products, categories, i);
    }
  }

  /** The format of an assigned number: a category code of width
   *  `IdWidth(|categories|)`, a dash, and a product code of width
   *  `IdWidth(size of the category)`, both reading back as positions counted
   *  from the end. */
  lemma AssignedIdFormat(products: seq<Product>, categories: seq<string>, i: nat)
    requires i < |products| && products[i].priceCategory in categories
    ensures var c := products[i].priceCategory;
      var ci := LastIndexOf(categories, c);
      var size := CategorySize(products, c);
      var rank := Rank(products, i, c);
      && rank < size
      && AssignedId(products, categories, i) == Code(ci, |categories|) + "-" + Code(rank, size)
      && |Code(ci, |categories|)| == IdWidth(|categories|) >= 4
      && DigitsValue(Code(ci, |categories|)) == |categories| - 1 - ci
      && |Code(rank, size)| == IdWidth(size) >= 4
      && DigitsValue(Code(rank, size)) == size - 1 - rank
  {
    var c := products[i].priceCategory;
    RankStep(products, i, c);
    CodeValue(LastIndexOf(categories, c), |categories|);
    CodeValue(Rank(products, i, c), CategorySize(products, c));
  }

  /** Two numbers whose first parts have the same width differ when either part does. */
  lemma DashDiffers(a: string, b: string, a': string, b': string)
    requires |a| == |a'|
    requires a != a' || b != b'
    ensures a + "-" + b != a' + "-" + b'
  {
    var s := a + "-" + b;
    assert s[..|a|] == a;
    assert (a' + "-" + b')[..|a|] == a';
    assert s[|a| + 1..] == b;
    assert (a' + "-" + b')[|a| + 1..] == b';
  }

  /** No two products receive the same number. */
  lemma AssignedIdsDistinct(products: seq<Product>, categories: seq<string>, i: nat, j: nat)
    requires i < j < |products|
    requires products[i].priceCategory in categories && products[j].priceCategory in categories
    ensures AssignedId(products, categories, i) != AssignedId(products, categories, j)
  {
    var ci, cj := products[i].priceCategory, products[j].priceCategory;
    var ki, kj := LastIndexOf(categories, ci), LastIndexOf(categories, cj);
    AssignedIdFormat(products, categories, i);
    AssignedIdFormat(products, categories, j);
    if ki != kj {
      CodeInjective(ki, kj, |categories|);
    } else {
      assert ci == cj;
      RankIncreases(products, i, j, ci);
      RankStep(products, j, ci);
      CodeInjective(Rank(products, i, ci), Rank(products, j, ci), CategorySize(products, ci));
    }
    DashDiffers(Code(ki, |categories|), ProductCode(products, i), Code(kj, |categories|), ProductCode(products, j));
  }

  /** The ids of the selected rows, looked up in the section one by one. */
  method CollectSelectedIds(products: seq<Product>, category: string, offsets: seq<nat>) returns (selected: set<Uuid>)
    requires ValidOffsets(offsets, |ByCategory(products, category)|)
    ensures selected == SelectedIds(products, category, offsets)
  {
    var section := ByCategory(products, category);
    selected := {};
    for t := 0 to |offsets|
      invariant selected == set u | 0 <= u < t :: section[offsets[u]].id
    {
      selected := selected + {section[offsets[t]].id};
    }
  }

  /** The products whose ids are not selected, in order. */
  method RemoveSelected(products: seq<Product>, selected: set<Uuid>) returns (kept: seq<Product>)
    ensures kept == Filter(products, Unselected(selected))
  {
    kept := [];
    for i := 0 to |products|
      invariant kept == Filter(products[..i], Unselected(selected))
    {
      assert products[..i + 1] == products[..i] + [products[i]];
      FilterAppend(products[..i], [products[i]], Unselected(selected));
      assert Filter([products[i]], Unselected(selected))
        == if products[i].id !in selected then [products[i]] else [];
      if products[i].id !in selected {
        kept := kept + [products[i]];
      }
    }
    assert products[..|products|] == products;
  }

  /** One pass of `generateNewID`'s outer loop: walk the products, numbering
   *  those of `category` in turn. */
  method RenumberCategory(products: seq<Product>, category: string, categoryCode: string) returns (r: seq<Product>)
    ensures r == Renumber(products, category, categoryCode)
  {
    var size := CategorySize(products, category);
    var rank := 0;
    r := products;
    for i := 0 to |products|
      invariant |r| == |products|
      invariant forall j :: 0 <= j < i ==> r[j] == RenumberedAt(products, category, categoryCode, j)
      invariant forall j :: i <= j < |products| ==> r[j] == products[j]
      invariant rank == Rank(products, i, category)
    {
      RankStep(products, i, category);
      if r[i].priceCategory == category {
        r := r[i := r[i].(productID := categoryCode + "-" + Code(rank, size))];
        rank := rank + 1;
      }
    }
  }

  // ----- The editor state ------------------------------------------------------

  class MenuEditor {
    var products: seq<Product>
    var priceCategories: seq<string>

    constructor ()
      ensures products == [] && priceCategories == []
    {
      products := [];
      priceCategories := [];
    }

    /** `deleteItem`, with the selected rows removed as intended (see
     *  `DeleteAsWritten` for the code as written), then the category dropped if
     *  its section is empty. */
    method DeleteItem(offsets: seq<nat>, category: string)
      requires ValidOffsets(offsets, |ByCategory(products, category)|)
      modifies this
      ensures products == DeleteSelected(old(products), category, offsets)
      ensures priceCategories == CategoriesAfterDelete(old(priceCategories), products, category)
    {
      var selected := CollectSelectedIds(products, category, offsets);
      products := RemoveSelected(products, selected);
      if ByCategory(products, category) == [] {
        priceCategories := Filter(priceCategories, NotCategory(category));
      }
    }

    /** `moveItem`: the section's rows are moved as positions in the whole list,
     *  shifted by the position of the category's first product. */
    method MoveItem(offsets: seq<nat>, offset: nat, category: string)
      requires forall t :: 0 <= t < |offsets| ==> offsets[t] + CategoryStart(products, category) < |products|
      requires offset + CategoryStart(products, category) <= |products|
      modifies this
      ensures var start := CategoryStart(old(products), category);
        products == Moved(old(products), Sources(offsets, start), offset + start)
      ensures priceCategories == old(priceCategories)
    {
      var globalIndex := CategoryStart(products, category);
      var sourceIndices: set<nat> := {};
      for t := 0 to |offsets|
        invariant sourceIndices == set u | 0 <= u < t :: offsets[u] + globalIndex
      {
        sourceIndices := sourceIndices + {offsets[t] + globalIndex};
      }
      var toIndex := offset + globalIndex;
      products := Moved(products, sourceIndices, toIndex);
    }

    /** `generateNewID`: sort the categories, renumber every product as
     *  `categoryCode-productCode`, then sort the products by `>`. */
    method GenerateNewID(key: string -> real)
      modifies this
      ensures priceCategories == SortPriceCategories(old(priceCategories), key)
      ensures products == Sort(RenumberAll(old(products), priceCategories, |priceCategories|), Greater)
      ensures multiset(products) == multiset(RenumberAll(old(products), priceCategories, |priceCategories|))
      ensures DistinctPriceValues(old(products)) ==> SortedBy(products, Greater)
    {
      var categories := SortPriceCategories(priceCategories, key);
      priceCategories := categories;
      var count := |categories|;
      for ci := 0 to count
        invariant priceCategories == categories
        invariant products == RenumberAll(old(products), categories, ci)
      {
        products := RenumberCategory(products, categories[ci], Code(ci, count));
      }
      if DistinctPriceValues(old(products)) {
        RenumberKeepsPrices(old(products), categories);
        SortedByGreater(products);
      }
      products := Sort(products, Greater);
    }

    /** `addNewProduct`: append a product numbered "0000-0000" and list its price
     *  category if it is new. The price text and the UUID are parameters. */
    method AddNewProduct(id: Uuid, name: string, price: string, foodOrDrink: FoodOrDrink)
      modifies this
      ensures products == old(products) + [NewProduct(id, "0000-0000", name, price, foodOrDrink)]
      ensures priceCategories == AppendMissing(old(priceCategories), [price + YuanSuffix])
      ensures NoDuplicates(old(priceCategories)) ==> NoDuplicates(priceCategories)
      ensures price + YuanSuffix in priceCategories
    {
      var newProduct := NewProduct(id, "0000-0000", name, price, foodOrDrink);
      products := products + [newProduct];
      if newProduct.priceCategory !in priceCategories {
        priceCategories := priceCategories + [newProduct.priceCategory];
      }
      assert [price + YuanSuffix][..0] == [];
      if NoDuplicates(old(priceCategories)) {
        AppendMissingNoDuplicates(old(priceCategories), [price + YuanSuffix]);
      }
    }
  }
}
