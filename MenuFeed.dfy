/** `NetworkMenuManager`: turns the menu CSV into products and collects the
 *  price categories of the menu. Downloading the CSV is outside the model: the
 *  text arrives as a parameter, and so do the UUIDs the products are given. */
module MenuFeed {
  import opened Wrappers
  import opened Text
  import opened Lists
  import opened Sorting
  import opened Products

  /** The marker in the fourth column that makes a product food. */
  const FoodMarker: string := "食物"

  /** A line of the CSV that `parseCSV` reads without failing: a line of exactly
   *  three fields passes the `count >= 3` test and then reads a fourth field. */
  predicate Readable(line: string) {
    |Split(line, ',')| != 3
  }

  /** Every line after the header is readable. */
  predicate ReadableBody(lines: seq<string>) {
    forall i :: 1 <= i < |lines| ==> Readable(lines[i])
  }

  /** The product one data line describes, and `None` for a line of one or two
   *  fields, which is skipped. */
  function ParseLine(line: string, id: Uuid): (r: Option<Product>)
    requires Readable(line)
    ensures r.Some? <==> |Split(line, ',')| >= 4
    ensures r.Some? ==>
      var fields := Split(line, ',');
      && r.value.id == id
      && r.value.productID == fields[0]
      && r.value.name == fields[1]
      && r.value.price == fields[2]
      && r.value.priceCategory == fields[2] + YuanSuffix
      && (r.value.foodOrDrink == Food <==> Contains(fields[3], FoodMarker))
  {
    var fields := Split(line, ',');
    if |fields| >= 3 then
      Some(NewProduct(id, fields[0], fields[1], fields[2],
                      if Contains(fields[3], FoodMarker) then Food else Drink))
    else
      None
  }

  /** The products `parseCSV` appends for the first `n` lines: the header line is
   *  skipped, and line `i` gets the UUID `ids[i]`. */
  function Parsed(lines: seq<string>, ids: seq<Uuid>, n: nat): seq<Product>
    requires |ids| == |lines| && n <= |lines| && ReadableBody(lines)
  {
    if n <= 1 then []
    else
      match ParseLine(lines[n - 1], ids[n - 1])
      case Some(p) => Parsed(lines, ids, n - 1) + [p]
      case None => Parsed(lines, ids, n - 1)
  }

  /** The header line is never read: two inputs that differ only there give the
   *  same products. */
  lemma {:induction false} HeaderIgnored(lines: seq<string>, other: seq<string>, ids: seq<Uuid>, n: nat)
    requires |ids| == |lines| == |other| && n <= |lines| && ReadableBody(lines)
    requires |lines| >= 1 && other[1..] == lines[1..]
    ensures ReadableBody(other)
    ensures Parsed(lines, ids, n) == Parsed(other, ids, n)
  {
    assert forall i :: 1 <= i < |lines| ==> other[i] == other[1..][i - 1] == lines[i];
    if n > 1 {
      HeaderIgnored(lines, other, ids, n - 1);
    }
  }

  /** Every product comes from some data line, with that line's UUID. */
  lemma {:induction false} ParsedFromLines(lines: seq<string>, ids: seq<Uuid>, n: nat)
    requires |ids| == |lines| && n <= |lines| && ReadableBody(lines)
    ensures forall p :: p in Parsed(lines, ids, n) ==>
      exists i :: 1 <= i < n && ParseLine(lines[i], ids[i]) == Some(p)
  {
    if n > 1 {
      ParsedFromLines(lines, ids, n - 1);
    }
  }

  /** Every data line of four or more fields gives a product. */
  lemma {:induction false} LinesParsed(lines: seq<string>, ids: seq<Uuid>, n: nat)
    requires |ids| == |lines| && n <= |lines| && ReadableBody(lines)
    ensures forall i :: 1 <= i < n && |Split(lines[i], ',')| >= 4 ==>
      ParseLine(lines[i], ids[i]).value in Parsed(lines, ids, n)
  {
    if n > 1 {
      LinesParsed(lines, ids, n - 1);
    }
  }

  /** There are as many products as data lines of four or more fields. */
  function CountProductLines(lines: seq<string>, n: nat): nat
    requires n <= |lines|
  {
    if n <= 1 then 0
    else CountProductLines(lines, n - 1) + (if |Split(lines[n - 1], ',')| >= 4 then 1 else 0)
  }

  lemma {:induction false} ParsedCount(lines: seq<string>, ids: seq<Uuid>, n: nat)
    requires |ids| == |lines| && n <= |lines| && ReadableBody(lines)
    ensures |Parsed(lines, ids, n)| == CountProductLines(lines, n)
  {
    if n > 1 {
      ParsedCount(lines, ids, n - 1);
    }
  }

  class NetworkMenuManager {
    var products: seq<Product>
    var categories: seq<string>

    constructor ()
      ensures products == [] && categories == []
    {
      products := [];
      categories := [];
    }

    /** `parseCSV`: append one product per data line of the CSV. */
    method ParseCSV(csvString: string, ids: seq<Uuid>)
      requires |ids| == |Split(csvString, '\n')|
      requires ReadableBody(Split(csvString, '\n'))
      modifies this
      ensures var lines := Split(csvString, '\n');
        products == old(products) + Parsed(lines, ids, |lines|)
      ensures categories == old(categories)
    {
      var lines := Split(csvString, '\n');
      for index := 0 to |lines|
        invariant products == old(products) + Parsed(lines, ids, if index == 0 then 0 else index)
        invariant categories == old(categories)
      {
        if index == 0 {
          continue;
        }
        var fields := Split(lines[index], ',');
        if |fields| >= 3 {
          var product := NewProduct(ids[index], fields[0], fields[1], fields[2],
                                    if Contains(fields[3], FoodMarker) then Food else Drink);
          products := products + [product];
        }
      }
    }

    /** `sortProductList`: sort the products by `>`, then list every price
     *  category not yet in `categories`, in the order the sorted products show
     *  them (see `MenuCategories`). */
    method SortProductList()
      modifies this
      ensures products == Sort(old(products), Greater)
      ensures multiset(products) == multiset(old(products))
      ensures DistinctPriceValues(old(products)) ==> SortedBy(products, Greater)
      ensures categories == AppendMissing(old(categories), PriceCategories(products))
    {
      var sorted := Sort(products, Greater);
      products := sorted;
      ghost var all := PriceCategories(sorted);
      for i := 0 to |sorted|
        invariant products == sorted
        invariant categories == AppendMissing(old(categories), all[..i])
      {
        assert all[..i + 1][..i] == all[..i];
        if products[i].priceCategory !in categories {
          categories := categories + [products[i].priceCategory];
        }
      }
      assert all[..|sorted|] == all;
      if DistinctPriceValues(old(products)) {
        SortedByGreater(old(products));
      }
    }
  }

  /** What the category list holds after `sortProductList`: a duplicate-free list
   *  stays duplicate-free, it lists exactly the old categories and those of the
   *  products, and the new ones come in product order. */
  lemma MenuCategories(categories: seq<string>, products: seq<Product>)
    ensures var r := AppendMissing(categories, PriceCategories(products));
      && (NoDuplicates(categories) ==> NoDuplicates(r))
      && (forall c :: c in r <==> c in categories || exists p :: p in products && p.priceCategory == c)
      && AddedInOrder(categories, PriceCategories(products), r)
  {
    var all := PriceCategories(products);
    if NoDuplicates(categories) {
      AppendMissingNoDuplicates(categories, all);
    }
    AppendMissingContents(categories, all);
    AppendMissingOrder(categories, all);
    forall c ensures c in all <==> exists p :: p in products && p.priceCategory == c {
      if c in all {
        var i :| 0 <= i < |all| && all[i] == c;
        assert products[i] in products;
      }
    }
  }
}
