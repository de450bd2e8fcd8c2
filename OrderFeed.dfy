/** `NetworkOrderManager`: turns the day's order CSV into one entry per order,
 *  each holding the products of all the lines with that order number, newest
 *  order first. Downloading the CSV is outside the model; the UUIDs the entries
 *  and their product rows carry are not modelled (nothing reads them here). */
module OrderFeed {
  import opened Wrappers
  import opened Text
  import opened Numerals
  import opened Lists
  import opened Sorting

  datatype OrderProductItem = OrderProductItem(productName: string, quantity: string)

  datatype OrderDetailsItem = OrderDetailsItem(
    orderID: string,
    phoneNum: string,
    orders: seq<OrderProductItem>,
    time: string,
    comment: string,
    payMethod: string,
    status: string)

  /** The entry one CSV line describes, or `None` for a line `parseCSV` skips:
   *  a blank line, fewer than eight fields, or a quantity that is not an `Int`.
   *  The columns are order number, phone, product, quantity, time, comment,
   *  payment method and status; the quantity is stored re-rendered. */
  function ParseOrderLine(line: string): Option<OrderDetailsItem>
  {
    var fields := Split(line, ',');
    if IsBlank(line) || |fields| < 8 then None
    else
      match ParseInt64(fields[3])
      case None => None
      case Some(quantity) =>
        Some(OrderDetailsItem(fields[0], fields[1], [OrderProductItem(fields[2], IntToString(quantity))],
                              fields[4], fields[5], fields[6], fields[7]))
  }

  lemma OrderLineFields(line: string)
    ensures var r := ParseOrderLine(line);
      && (r.None? <==> IsBlank(line) || |Split(line, ',')| < 8 || ParseInt64(Split(line, ',')[3]).None?)
      && (r.Some? ==>
      var fields := Split(line, ',');
      && r.value.orderID == fields[0] && r.value.phoneNum == fields[1]
      && r.value.time == fields[4] && r.value.comment == fields[5]
      && r.value.payMethod == fields[6] && r.value.status == fields[7]
      && |r.value.orders| == 1 && r.value.orders[0].productName == fields[2]
      && ParseInt64(r.value.orders[0].quantity) == ParseInt64(fields[3]))
  {
    var fields := Split(line, ',');
    if !IsBlank(line) && |fields| >= 8 && ParseInt64(fields[3]).Some? {
      Int64RoundTrip(ParseInt64(fields[3]).value);
    }
  }

  /** The entry line `i` contributes; the header line contributes none. */
  function LineEntry(lines: seq<string>, i: nat): Option<OrderDetailsItem>
    requires i < |lines|
  {
    if i == 0 then None else ParseOrderLine(lines[i])
  }

  function OrderIds(list: seq<OrderDetailsItem>): (r: seq<string>)
    ensures |r| == |list|
    ensures forall k :: 0 <= k < |r| ==> r[k] == list[k].orderID
  {
    seq(|list|, k requires 0 <= k < |list| => list[k].orderID)
  }

  /** `firstIndex(where:)` on the order number: the first entry with this
   *  number, or `|list|` when there is none. */
  function FindOrder(list: seq<OrderDetailsItem>, id: string): (k: nat)
    ensures k <= |list|
    ensures k < |list| ==> list[k].orderID == id
    ensures forall i :: 0 <= i < k ==> list[i].orderID != id
  {
    if list == [] then 0
    else if list[0].orderID == id then 0
    else 1 + FindOrder(list[1..], id)
  }

  /** One step of the loop: the products join the entry with the same order
   *  number, or the line becomes a new entry at the end. */
  function AddEntry(list: seq<OrderDetailsItem>, entry: OrderDetailsItem): seq<OrderDetailsItem>
  {
    var k := FindOrder(list, entry.orderID);
    if k < |list| then list[k := list[k].(orders := list[k].orders + entry.orders)]
    else list + [entry]
  }

  /** A line that is no entry leaves the list as it is. */
  function Step(list: seq<OrderDetailsItem>, line: Option<OrderDetailsItem>): seq<OrderDetailsItem>
  {
    match line
    case None => list
    case Some(entry) => AddEntry(list, entry)
  }

  /** The entry of every line, the header's being `None`. */
  function Entries(lines: seq<string>): (r: seq<Option<OrderDetailsItem>>)
    ensures |r| == |lines|
    ensures forall i :: 0 <= i < |r| ==> r[i] == LineEntry(lines, i)
  {
    seq(|lines|, i requires 0 <= i < |lines| => LineEntry(lines, i))
  }

  /** The list after the first `n` lines, given the entry of each line. */
  function Grouped(entries: seq<Option<OrderDetailsItem>>, n: nat): seq<OrderDetailsItem>
    requires n <= |entries|
  {
    if n == 0 then [] else Step(Grouped(entries, n - 1), entries[n - 1])
  }

  // ----- What the grouping holds -------------------------------------------------

  /** No two entries share an order number. */
  predicate UniqueOrders(list: seq<OrderDetailsItem>) {
    forall i, j :: 0 <= i < j < |list| ==> list[i].orderID != list[j].orderID
  }

  lemma AddEntryUnique(list: seq<OrderDetailsItem>, entry: OrderDetailsItem)
    requires UniqueOrders(list)
    ensures UniqueOrders(AddEntry(list, entry))
  {
  }

  lemma {:induction false} GroupedUnique(entries: seq<Option<OrderDetailsItem>>, n: nat)
    requires n <= |entries|
    ensures UniqueOrders(Grouped(entries, n))
  {
    if n > 0 {
      GroupedUnique(entries, n - 1);
      if entries[n - 1].Some? {
        AddEntryUnique(Grouped(entries, n - 1), entries[n - 1].value);
      }
    }
  }

  /** Some line among the first `n` is an entry with this order number. */
  predicate HasLine(entries: seq<Option<OrderDetailsItem>>, n: nat, id: string)
    requires n <= |entries|
  {
    n > 0 && (HasLine(entries, n - 1, id) || (entries[n - 1].Some? && entries[n - 1].value.orderID == id))
  }

  /** Without such a line among the first `m`, none of them has this number. */
  lemma {:induction false} NoLineBefore(entries: seq<Option<OrderDetailsItem>>, m: nat, id: string)
    requires m <= |entries| && !HasLine(entries, m, id)
    ensures forall j :: 0 <= j < m ==> !(entries[j].Some? && entries[j].value.orderID == id)
  {
    if m > 0 {
      NoLineBefore(entries, m - 1, id);
    }
  }

  /** The first such line: it has this number and no line before it has. */
  function FirstLine(entries: seq<Option<OrderDetailsItem>>, n: nat, id: string): (i: nat)
    requires n <= |entries| && HasLine(entries, n, id)
    ensures i < n && entries[i].Some? && entries[i].value.orderID == id
    ensures forall j :: 0 <= j < i ==> !(entries[j].Some? && entries[j].value.orderID == id)
  {
    if HasLine(entries, n - 1, id) then FirstLine(entries, n - 1, id)
    else
      NoLineBefore(entries, n - 1, id);
      n - 1
  }

  /** The products of all the lines with this order number, in line order. */
  function OrdersFor(entries: seq<Option<OrderDetailsItem>>, n: nat, id: string): seq<OrderProductItem>
    requires n <= |entries|
  {
    if n == 0 then []
    else
      var entry := entries[n - 1];
      OrdersFor(entries, n - 1, id) + (if entry.Some? && entry.value.orderID == id then entry.value.orders else [])
  }

  /** The entry without its products: the fields taken from one line. */
  function Header(entry: OrderDetailsItem): OrderDetailsItem {
    entry.(orders := [])
  }

  /** What the list after `n` lines holds: an entry for exactly the order numbers
   *  that occur; each entry's fields come from the first line with its number,
   *  and its products are those of all the lines with its number, in line order. */
  ghost predicate Summarizes(g: seq<OrderDetailsItem>, entries: seq<Option<OrderDetailsItem>>, n: nat)
    requires n <= |entries|
  {
    && (forall id :: id in OrderIds(g) <==> HasLine(entries, n, id))
    && (forall k :: 0 <= k < |g| ==>
          && HasLine(entries, n, g[k].orderID)
          && Header(g[k]) == Header(entries[FirstLine(entries, n, g[k].orderID)].value)
          && g[k].orders == OrdersFor(entries, n, g[k].orderID))
  }

  lemma {:induction false} GroupedEntries(entries: seq<Option<OrderDetailsItem>>, n: nat)
    requires n <= |entries|
    ensures Summarizes(Grouped(entries, n), entries, n)
  {
    if n > 0 {
      GroupedEntries(entries, n - 1);
      GroupedUnique(entries, n - 1);
      var g := Grouped(entries, n - 1);
      match entries[n - 1]
      case None =>
        SkipLine(entries, n, g);
      case Some(entry) =>
        var k := FindOrder(g, entry.orderID);
        if k < |g| {
          JoinExisting(entries, n, g, entry, k);
        } else {
          AppendNew(entries, n, g, entry);
        }
    }
  }

  /** A line that is no entry changes none of the three summaries. */
  lemma SkipLine(entries: seq<Option<OrderDetailsItem>>, n: nat, g: seq<OrderDetailsItem>)
    requires 0 < n <= |entries| && entries[n - 1].None?
    requires Summarizes(g, entries, n - 1)
    ensures Summarizes(g, entries, n)
  {
    assert forall id :: HasLine(entries, n, id) == HasLine(entries, n - 1, id);
    assert forall id :: HasLine(entries, n - 1, id) ==> FirstLine(entries, n, id) == FirstLine(entries, n - 1, id);
    assert forall id :: OrdersFor(entries, n, id) == OrdersFor(entries, n - 1, id);
  }

  /** How one more line that is an entry changes the three summaries. */
  lemma LineStep(entries: seq<Option<OrderDetailsItem>>, n: nat, entry: OrderDetailsItem)
    requires 0 < n <= |entries| && entries[n - 1] == Some(entry)
    ensures forall id :: HasLine(entries, n, id) <==> HasLine(entries, n - 1, id) || id == entry.orderID
    ensures forall id :: HasLine(entries, n - 1, id) ==> FirstLine(entries, n, id) == FirstLine(entries, n - 1, id)
    ensures forall id ::
      OrdersFor(entries, n, id) == OrdersFor(entries, n - 1, id) + (if id == entry.orderID then entry.orders else [])
  {
  }

  /** The line's order number is already listed at `k`. */
  lemma JoinExisting(entries: seq<Option<OrderDetailsItem>>, n: nat, g: seq<OrderDetailsItem>,
                     entry: OrderDetailsItem, k: nat)
    requires 0 < n <= |entries| && entries[n - 1] == Some(entry)
    requires Summarizes(g, entries, n - 1) && UniqueOrders(g)
    requires k < |g| && g[k].orderID == entry.orderID
    ensures Summarizes(g[k := g[k].(orders := g[k].orders + entry.orders)], entries, n)
  {
    var r := g[k := g[k].(orders := g[k].orders + entry.orders)];
    LineStep(entries, n, entry);
    assert OrderIds(r) == OrderIds(g);
    forall j | 0 <= j < |r|
      ensures HasLine(entries, n, r[j].orderID)
      ensures Header(r[j]) == Header(entries[FirstLine(entries, n, r[j].orderID)].value)
      ensures r[j].orders == OrdersFor(entries, n, r[j].orderID)
    {
      assert r[j].orderID == g[j].orderID && Header(r[j]) == Header(g[j]);
      if j != k {
        assert r[j] == g[j] && g[j].orderID != entry.orderID;
      }
    }
  }

  /** The line's order number is new. */
  lemma AppendNew(entries: seq<Option<OrderDetailsItem>>, n: nat, g: seq<OrderDetailsItem>, entry: OrderDetailsItem)
    requires 0 < n <= |entries| && entries[n - 1] == Some(entry)
    requires Summarizes(g, entries, n - 1)
    requires forall i :: 0 <= i < |g| ==> g[i].orderID != entry.orderID
    ensures Summarizes(g + [entry], entries, n)
  {
    var r := g + [entry];
    LineStep(entries, n, entry);
    assert OrderIds(r) == OrderIds(g) + [entry.orderID];
    assert entry.orderID !in OrderIds(g);
    assert FirstLine(entries, n, entry.orderID) == n - 1;
    NoLineNoOrders(entries, n - 1, entry.orderID);
    forall j | 0 <= j < |r|
      ensures HasLine(entries, n, r[j].orderID)
      ensures Header(r[j]) == Header(entries[FirstLine(entries, n, r[j].orderID)].value)
      ensures r[j].orders == OrdersFor(entries, n, r[j].orderID)
    {
      if j < |g| {
        assert r[j] == g[j];
      }
    }
  }

  lemma {:induction false} NoLineNoOrders(entries: seq<Option<OrderDetailsItem>>, n: nat, id: string)
    requires n <= |entries| && !HasLine(entries, n, id)
    ensures OrdersFor(entries, n, id) == []
  {
    if n > 0 {
      NoLineNoOrders(entries, n - 1, id);
    }
  }

  /** How many lines are entries. */
  function AcceptedLines(entries: seq<Option<OrderDetailsItem>>, n: nat): nat
    requires n <= |entries|
  {
    if n == 0 then 0 else AcceptedLines(entries, n - 1) + (if entries[n - 1].Some? then 1 else 0)
  }

  /** How many product rows the entries hold together. */
  function ProductRows(list: seq<OrderDetailsItem>): nat {
    if list == [] then 0 else ProductRows(list[..|list| - 1]) + |list[|list| - 1].orders|
  }

  lemma {:induction false} ProductRowsUpdate(list: seq<OrderDetailsItem>, k: nat, item: OrderDetailsItem)
    requires k < |list|
    ensures ProductRows(list[k := item]) + |list[k].orders| == ProductRows(list) + |item.orders|
  {
    var last := |list| - 1;
    if k < last {
      assert list[k := item][..last] == list[..last][k := item];
      ProductRowsUpdate(list[..last], k, item);
    } else {
      assert list[k := item][..last] == list[..last];
    }
  }

  /** A line that is an entry adds one product row. */
  lemma AddEntryRows(list: seq<OrderDetailsItem>, entry: OrderDetailsItem)
    requires |entry.orders| == 1
    ensures ProductRows(AddEntry(list, entry)) == ProductRows(list) + 1
  {
    var k := FindOrder(list, entry.orderID);
    if k < |list| {
      ProductRowsUpdate(list, k, list[k].(orders := list[k].orders + entry.orders));
    } else {
      assert (list + [entry])[..|list|] == list;
    }
  }

  /** Every accepted line becomes exactly one product row. */
  lemma {:induction false} ProductRowsCount(lines: seq<string>, n: nat)
    requires n <= |lines|
    ensures ProductRows(Grouped(Entries(lines), n)) == AcceptedLines(Entries(lines), n)
  {
    if n > 0 {
      ProductRowsCount(lines, n - 1);
      var entries := Entries(lines);
      if entries[n - 1].Some? {
        AddEntryRows(Grouped(entries, n - 1), entries[n - 1].value);
      }
    }
  }

  // ----- The order on entries -------------------------------------------------------

  /** `OrderDetailsItem.<`: by order number; both numbers must parse (`Int(…)!`). */
  predicate OrderLess(a: OrderDetailsItem, b: OrderDetailsItem)
    requires ParseInt64(a.orderID).Some? && ParseInt64(b.orderID).Some?
  {
    ParseInt64(a.orderID).value < ParseInt64(b.orderID).value
  }

  /** `OrderDetailsItem.==`: by order number text. */
  predicate OrderEqual(a: OrderDetailsItem, b: OrderDetailsItem) {
    a.orderID == b.orderID
  }

  function OrderNumber(entry: OrderDetailsItem): int {
    ParseInt64(entry.orderID).GetOr(0)
  }

  /** `sorted(by: >)`: `a` goes before `b` when `b < a`. */
  predicate NewerFirst(a: OrderDetailsItem, b: OrderDetailsItem) {
    OrderNumber(a) > OrderNumber(b)
  }

  /** When both numbers parse, the sort order is `>`. */
  lemma NewerFirstIsGreater(a: OrderDetailsItem, b: OrderDetailsItem)
    requires ParseInt64(a.orderID).Some? && ParseInt64(b.orderID).Some?
    ensures NewerFirst(a, b) <==> OrderLess(b, a)
  {
  }

  lemma NewerFirstIsStrict()
    ensures StrictWeakOrder(NewerFirst)
  {
  }

  /** Equal entries are unordered, but unordered entries need not be equal:
   *  "1" and "01" are the same number written differently. */
  lemma EqualAndOrder(a: OrderDetailsItem, b: OrderDetailsItem)
    requires ParseInt64(a.orderID).Some? && ParseInt64(b.orderID).Some?
    ensures OrderEqual(a, b) ==> !OrderLess(a, b) && !OrderLess(b, a)
    ensures a.orderID == "1" && b.orderID == "01" ==> !OrderLess(a, b) && !OrderLess(b, a) && !OrderEqual(a, b)
  {
    if a.orderID == "1" && b.orderID == "01" {
      assert DigitsValue("1") == 1 by { assert "1"[..0] == []; }
      assert DigitsValue("01") == 1 by { assert "01"[..1] == "0"; assert "0"[..0] == []; }
    }
  }

  /** Every entry's number parses: the precondition of `OrderLess` on any pair. */
  predicate NumbersParse(list: seq<OrderDetailsItem>) {
    forall k :: 0 <= k < |list| ==> ParseInt64(list[k].orderID).Some?
  }

  /** Sorting newest first, when the numbers parse, puts the larger numbers first. */
  lemma SortedNewestFirst(list: seq<OrderDetailsItem>)
    requires NumbersParse(list)
    ensures var r := Sort(list, NewerFirst);
      && multiset(r) == multiset(list)
      && NumbersParse(r)
      && forall i, j :: 0 <= i < j < |r| ==> ParseInt64(r[i].orderID).value >= ParseInt64(r[j].orderID).value
  {
    NewerFirstIsStrict();
    StrictWeakEverywhere(list, NewerFirst);
    SortSorted(list, NewerFirst);
    var r := Sort(list, NewerFirst);
    forall k | 0 <= k < |r| ensures ParseInt64(r[k].orderID).Some? {
      assert r[k] in multiset(list);
    }
  }

  // ----- What sorting keeps ---------------------------------------------------

  /** A value at two positions occurs at least twice. */
  lemma TwiceInMultiset<T>(s: seq<T>, i: nat, j: nat)
    requires i < j < |s|
    ensures s[i] == s[j] ==> multiset(s)[s[i]] >= 2
  {
    assert s == s[..j] + [s[j]] + s[j + 1..];
    assert s[..j][i] == s[i];
  }

  /** A value that occurs at least twice is at two positions. */
  lemma TwiceAtTwoPlaces<T>(s: seq<T>, x: T)
    ensures multiset(s)[x] >= 2 ==> exists i, j :: 0 <= i < j < |s| && s[i] == x && s[j] == x
  {
    if multiset(s)[x] >= 2 {
      assert x in multiset(s);
      var p :| 0 <= p < |s| && s[p] == x;
      assert s == s[..p] + [x] + s[p + 1..];
      if x in s[..p] {
        var i :| 0 <= i < p && s[..p][i] == x;
        assert s[i] == x && s[p] == x;
      } else {
        assert x in multiset(s[p + 1..]);
        var j :| 0 <= j < |s| - p - 1 && s[p + 1..][j] == x;
        assert s[p] == x && s[p + 1 + j] == x;
      }
    }
  }

  /** Rearranging the entries keeps their order numbers distinct. */
  lemma UniqueOrdersPermutation(a: seq<OrderDetailsItem>, b: seq<OrderDetailsItem>)
    requires multiset(a) == multiset(b) && UniqueOrders(a)
    ensures UniqueOrders(b)
  {
    forall i, j | 0 <= i < j < |b| ensures b[i].orderID != b[j].orderID {
      TwiceInMultiset(b, i, j);
      TwiceAtTwoPlaces(a, b[i]);
      assert b[i] in multiset(a) && b[j] in multiset(a);
      var p :| 0 <= p < |a| && a[p] == b[i];
      var q :| 0 <= q < |a| && a[q] == b[j];
    }
  }

  lemma {:induction false} ProductRowsInsertLast(s: seq<OrderDetailsItem>, x: OrderDetailsItem, before: (OrderDetailsItem, OrderDetailsItem) -> bool)
    ensures ProductRows(InsertLast(s, x, before)) == ProductRows(s) + |x.orders|
  {
    if s == [] || !before(x, s[|s| - 1]) {
      assert (s + [x])[..|s|] == s;
    } else {
      var init := s[..|s| - 1];
      ProductRowsInsertLast(init, x, before);
      var r := InsertLast(init, x, before) + [s[|s| - 1]];
      assert r[..|r| - 1] == InsertLast(init, x, before);
    }
  }

  /** Sorting keeps the number of product rows. */
  lemma {:induction false} ProductRowsSorted(s: seq<OrderDetailsItem>, before: (OrderDetailsItem, OrderDetailsItem) -> bool)
    ensures ProductRows(Sort(s, before)) == ProductRows(s)
  {
    if s != [] {
      var init := s[..|s| - 1];
      ProductRowsSorted(init, before);
      ProductRowsInsertLast(Sort(init, before), s[|s| - 1], before);
    }
  }

  /** What `parseCSV` leaves in `orderDetails`: one entry per order number and
   *  one product row per accepted line. */
  lemma OrderDetailsFacts(lines: seq<string>)
    ensures var r := Sort(Grouped(Entries(lines), |lines|), NewerFirst);
      && UniqueOrders(r)
      && ProductRows(r) == AcceptedLines(Entries(lines), |lines|)
  {
    var g := Grouped(Entries(lines), |lines|);
    GroupedUnique(Entries(lines), |lines|);
    UniqueOrdersPermutation(g, Sort(g, NewerFirst));
    ProductRowsCount(lines, |lines|);
    ProductRowsSorted(g, NewerFirst);
  }

  /** The body of the `parseCSV` loop for one line after the header: skip the
   *  line, add its products to the entry with its order number, or append it
   *  as a new entry. */
  method AddOrderLine(list: seq<OrderDetailsItem>, line: string) returns (r: seq<OrderDetailsItem>)
    ensures r == Step(list, ParseOrderLine(line))
  {
    if IsBlank(line) {
      return list;
    }
    var fields := Split(line, ',');
    if |fields| < 8 {
      return list;
    }
    var quantity := ParseInt64(fields[3]);
    if quantity.None? {
      return list;
    }
    var orderID := fields[0];
    var orders := [OrderProductItem(fields[2], IntToString(quantity.value))];
    var entry := OrderDetailsItem(orderID, fields[1], orders, fields[4], fields[5], fields[6], fields[7]);
    assert ParseOrderLine(line) == Some(entry);
    var k := FindOrder(list, orderID);
    if k < |list| {
      r := list[k := list[k].(orders := list[k].orders + orders)];
    } else {
      r := list + [entry];
    }
  }

  /** The grouping loop of `parseCSV`: every line after the header, in order. */
  method GroupLines(lines: seq<string>) returns (orderDetailsList: seq<OrderDetailsItem>)
    ensures orderDetailsList == Grouped(Entries(lines), |lines|)
  {
    ghost var entries := Entries(lines);
    orderDetailsList := [];
    for index := 0 to |lines|
      invariant orderDetailsList == Grouped(entries, index)
    {
      if index == 0 {
        continue;
      }
      assert entries[index] == ParseOrderLine(lines[index]);
      orderDetailsList := AddOrderLine(orderDetailsList, lines[index]);
    }
  }

  class NetworkOrderManager {
    var orderDetails: seq<OrderDetailsItem>

    constructor ()
      ensures orderDetails == []
    {
      orderDetails := [];
    }

    /** `parseCSV`: group the lines into entries, then sort them by `>`. The
     *  comparison unwraps both order numbers, so when there are two or more
     *  entries every number must parse. */
    method ParseCSV(csvString: string)
      requires var lines := Split(csvString, '\n');
        var g := Grouped(Entries(lines), |lines|);
        |g| <= 1 || NumbersParse(g)
      modifies this
      ensures var lines := Split(csvString, '\n');
        orderDetails == Sort(Grouped(Entries(lines), |lines|), NewerFirst)
      ensures UniqueOrders(orderDetails)
      ensures ProductRows(orderDetails) == AcceptedLines(Entries(Split(csvString, '\n')), |Split(csvString, '\n')|)
    {
      var lines := Split(csvString, '\n');
      var orderDetailsList := GroupLines(lines);
      orderDetails := Sort(orderDetailsList, NewerFirst);
      OrderDetailsFacts(lines);
    }
  }
}
