/**
 * The product record of the menu (Product.swift): its price category, derived
 * from the price when the product is created, and its `Comparable` conformance,
 * which orders by numeric price and then by product number.
 */
module Products {
  import opened Wrappers
  import opened Text
  import opened Numerals
  import opened Sorting
  import opened Lists

  /** An abstract universally unique identifier, as produced by `UUID()`. */
  datatype Uuid = Uuid(n: nat)

  /** `ProductCategory`: 食物 (food) or 饮品 (drink). */
  datatype FoodOrDrink = Food | Drink

  datatype Product = Product(
    id: Uuid,
    productID: string,
    name: string,
    price: string,
    priceCategory: string,
    foodOrDrink: FoodOrDrink)

  const YuanSuffix: string := "元"

  /** The price a category label stands for: the label without its trailing 元. */
  function CategoryPrice(category: string): Option<string> {
    if |category| >= 1 && category[|category| - 1] == '元' then Some(category[..|category| - 1]) else None
  }

  /** `Product.init`: a new product whose price category is its price followed by 元. */
  function NewProduct(id: Uuid, productID: string, name: string, price: string, foodOrDrink: FoodOrDrink): (p: Product)
    ensures p.id == id && p.productID == productID && p.name == name
    ensures p.price == price && p.foodOrDrink == foodOrDrink
    ensures p.priceCategory == price + YuanSuffix
    ensures CategoryPrice(p.priceCategory) == Some(price)
  {
    var p := Product(id, productID, name, price, price + YuanSuffix, foodOrDrink);
    assert p.priceCategory[..|p.priceCategory| - 1] == price;
    p
  }

  /** Two new products fall into the same price category exactly when their price
   *  strings are the same. */
  lemma SameCategoryIffSamePrice(p: Product, q: Product)
    requires p.priceCategory == p.price + YuanSuffix && q.priceCategory == q.price + YuanSuffix
    ensures p.priceCategory == q.priceCategory <==> p.price == q.price
  {
    if p.priceCategory == q.priceCategory {
      assert p.price == p.priceCategory[..|p.priceCategory| - 1];
    }
  }

  /** The price categories of a list of products, in list order. */
  function PriceCategories(products: seq<Product>): (r: seq<string>)
    ensures |r| == |products|
    ensures forall i :: 0 <= i < |r| ==> r[i] == products[i].priceCategory
  {
    seq(|products|, i requires 0 <= i < |products| => products[i].priceCategory)
  }

  /** `Double(price) ?? 0`. */
  function PriceValue(price: string): real {
    ParseDouble(price).GetOr(0.0)
  }

  /** `Product.<`: by numeric price when the price strings differ, otherwise by
   *  product number. */
  predicate Less(a: Product, b: Product) {
    if a.price != b.price then PriceValue(a.price) < PriceValue(b.price)
    else LexLess(a.productID, b.productID)
  }

  /** `>` as derived from `<` by `Comparable`. */
  predicate Greater(a: Product, b: Product) {
    Less(b, a)
  }

  /** `Product.==`: the product numbers agree, whatever the other fields. */
  predicate Equal(a: Product, b: Product) {
    a.productID == b.productID
  }

  lemma LessIrreflexive(a: Product)
    ensures !Less(a, a)
  {
    LexLessIrreflexive(a.productID);
  }

  lemma LessTransitive(a: Product, b: Product, c: Product)
    requires Less(a, b) && Less(b, c)
    ensures Less(a, c)
  {
    if a.price == b.price && b.price == c.price {
      LexLessTransitive(a.productID, b.productID, c.productID);
    }
  }

  /** Hence both `<` and `>` are strict orders, which is what sorting needs. */
  lemma LessIsStrictOrder()
    ensures StrictOrder(Less) && StrictOrder(Greater)
  {
    forall a: Product ensures !Less(a, a) {
      LessIrreflexive(a);
    }
    forall a: Product, b: Product, c: Product | Less(a, b) && Less(b, c) ensures Less(a, c) {
      LessTransitive(a, b, c);
    }
  }

  /** Two products with the same price text and different numbers are always
   *  ordered, one way or the other. */
  lemma SamePriceOrdered(a: Product, b: Product)
    requires a.price == b.price && a.productID != b.productID
    ensures Less(a, b) || Less(b, a)
  {
    LexLessTotal(a.productID, b.productID);
  }

  /** `<` is not a strict weak order: "1" and "1.0" are different strings with the
   *  same value, so a product priced "1.0" is unordered with respect to two
   *  products priced "1" that are ordered with respect to each other. */
  lemma LessIsNotStrictWeak()
    ensures var a := Product(Uuid(0), "a", "", "1", "1元", Drink);
            var b := Product(Uuid(1), "z", "", "1.0", "1.0元", Drink);
            var c := Product(Uuid(2), "b", "", "1", "1元", Drink);
            && !Less(a, b) && !Less(b, a)
            && !Less(b, c) && !Less(c, b)
            && Less(a, c)
  {
    PriceOne();
    PriceOnePointZero();
    assert LexLess("a", "b");
  }

  /** Price texts with the same value are the same text. */
  predicate SameValueSameText(p: Product, q: Product) {
    PriceValue(p.price) == PriceValue(q.price) ==> p.price == q.price
  }

  /** No two products of the list have different price texts of one value, as
   *  "1" and "1.0" would be. */
  predicate DistinctPriceValues(products: seq<Product>) {
    forall i, j :: 0 <= i < |products| && 0 <= j < |products| ==> SameValueSameText(products[i], products[j])
  }

  /** Among such products, whenever `a < c`, every `b` is above `a` or below `c`. */
  lemma LessNegativelyTransitive(a: Product, b: Product, c: Product)
    requires SameValueSameText(a, b) && SameValueSameText(b, c) && SameValueSameText(a, c)
    requires Less(a, c)
    ensures Less(a, b) || Less(b, c)
  {
    var va, vb, vc := PriceValue(a.price), PriceValue(b.price), PriceValue(c.price);
    if !(va < vb || vb < vc) {
      assert va == vb == vc;
      if a.productID != b.productID {
        LexLessTotal(a.productID, b.productID);
      }
      if LexLess(b.productID, a.productID) {
        LexLessTransitive(b.productID, a.productID, c.productID);
      }
    }
  }

  /** Hence `>` is a strict weak order on a list without such prices. */
  lemma GreaterIsStrictWeakOn(products: seq<Product>)
    requires DistinctPriceValues(products)
    ensures StrictWeakOn(products, Greater)
  {
    forall x, y | x in products && y in products && Greater(x, y) ensures !Greater(y, x) {
      if Greater(y, x) {
        LessTransitive(x, y, x);
        LessIrreflexive(x);
      }
    }
    forall x, y, z | x in products && y in products && z in products && Greater(x, z)
      ensures Greater(x, y) || Greater(y, z)
    {
      var i :| 0 <= i < |products| && products[i] == x;
      var j :| 0 <= j < |products| && products[j] == y;
      var k :| 0 <= k < |products| && products[k] == z;
      assert SameValueSameText(products[k], products[j]);
      assert SameValueSameText(products[j], products[i]);
      assert SameValueSameText(products[k], products[i]);
      LessNegativelyTransitive(z, y, x);
    }
  }

  /** `sorted(by: >)` sorts a list without price texts of equal value. */
  lemma SortedByGreater(products: seq<Product>)
    requires DistinctPriceValues(products)
    ensures SortedBy(Sort(products, Greater), Greater)
  {
    GreaterIsStrictWeakOn(products);
    SortSorted(products, Greater);
  }

  /** With prices "1" and "1.0", `sorted(by: >)` can leave the list unsorted:
   *  the "1.0" product stops the second "1" product from moving past it, so
   *  "b" stays after "a" although "a" < "b". */
  lemma SortLeavesUnsorted()
    ensures var a := Product(Uuid(0), "a", "", "1", "1元", Drink);
            var z := Product(Uuid(1), "z", "", "1.0", "1.0元", Drink);
            var b := Product(Uuid(2), "b", "", "1", "1元", Drink);
            && Sort([a, z, b], Greater) == [a, z, b]
            && !SortedBy(Sort([a, z, b], Greater), Greater)
  {
    var a := Product(Uuid(0), "a", "", "1", "1元", Drink);
    var z := Product(Uuid(1), "z", "", "1.0", "1.0元", Drink);
    var b := Product(Uuid(2), "b", "", "1", "1元", Drink);
    LessIsNotStrictWeak();
    SortThreeInOrder(a, z, b, Greater);
    assert Greater([a, z, b][2], [a, z, b][0]);
  }

  lemma PriceOne()
    ensures PriceValue("1") == 1.0
  {
    assert IndexOf("1", '.') == 1;
    assert DigitsValue("1") == 1 by { assert "1"[..0] == []; }
  }

  lemma PriceOnePointZero()
    ensures PriceValue("1.0") == 1.0
  {
    assert IndexOf("1.0", '.') == 1;
    assert "1.0"[..1] == "1" && "1.0"[2..] == "0";
    assert DigitsValue("1") == 1 by { assert "1"[..0] == []; }
    assert DigitsValue("0") == 0 by { assert "0"[..0] == []; }
  }

  lemma PriceTwo()
    ensures PriceValue("2") == 2.0
  {
    assert IndexOf("2", '.') == 1;
    assert DigitsValue("2") == 2 by { assert "2"[..0] == []; }
  }

  /** `==` and `<` disagree: two products with the same number but different
   *  prices are equal and yet one is less than the other. */
  lemma EqualButLess()
    ensures var a := Product(Uuid(0), "0000-0000", "", "1", "1元", Drink);
            var b := Product(Uuid(1), "0000-0000", "", "2", "2元", Drink);
            Equal(a, b) && Less(a, b)
  {
    PriceOne();
    PriceTwo();
  }
}
