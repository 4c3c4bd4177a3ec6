/**
  The checkout pipeline of the point-of-sale backend, up to the point where the
  sale is written: the request's lines are validated and merged into one
  quantity per product, the products are looked up, stock is checked for every
  line before anything is written, each line is priced and the lines summed,
  and low-stock advice is produced from the quantities that will remain. Money
  is held in integer cents, so rounding to two decimals changes nothing.

  The ledger's row types (the header and the line of a committed sale) are
  declared here because both the committer and the sales report use them.
*/
module Sales {
  import opened Wrappers
  import opened Text
  import opened Calendar

  // ---------------------------------------------------------------------------
  // The request as the server receives it
  // ---------------------------------------------------------------------------

  /** One field of a request line as Python's int() treats it: the key is missing, int() returns a value, or int() raises. */
  datatype Field = Absent | Integral(value: int) | NotIntegral

  /** One element of the "items" list: something that cannot be subscripted by a key, or an object with the two fields. */
  datatype RawItem = NotAnObject | Line(productId: Field, quantity: Field)

  /** The "items" value: anything other than a list, or a list of elements. */
  datatype RawItems = NotAList | Items(lines: seq<RawItem>)

  /** The error codes of a rejected checkout, with the facts their detail messages report. */
  datatype SaleError =
    | InvalidInput
    | InvalidItem(item: RawItem)
    | InvalidQuantity(productId: int)
    | ProductNotFound(missing: seq<int>)
    | NotEnoughStock(productId: int, name: string, have: int, need: int)
    | DbError
    | MissingItems
    | InvalidPaymentMethod

  /** The "error" string the server reports for each kind of rejection. */
  function ErrorCode(e: SaleError): string {
    match e
    case InvalidInput => "invalid_input"
    case InvalidItem(_) => "invalid_item"
    case InvalidQuantity(_) => "invalid_quantity"
    case ProductNotFound(_) => "product_not_found"
    case NotEnoughStock(_, _, _, _) => "not_enough_stock"
    case DbError => "db_error"
    case MissingItems => "missing_items"
    case InvalidPaymentMethod => "invalid_payment_method"
  }

  /** A product row: price in cents, stock on hand and cumulative units sold. */
  datatype Product = Product(name: string, price: int, quantity: int, totalSales: int)

  /** One (product id, quantity) pair of the merged request. */
  datatype Entry = Entry(productId: int, quantity: int)

  // ---------------------------------------------------------------------------
  // Merged requests: an insertion-ordered dictionary from product id to quantity
  // ---------------------------------------------------------------------------

  function Ids(c: seq<Entry>): (ids: seq<int>)
    ensures |ids| == |c|
    ensures forall i :: 0 <= i < |c| ==> ids[i] == c[i].productId
  {
    seq(|c|, i requires 0 <= i < |c| => c[i].productId)
  }

  predicate Distinct(s: seq<int>) {
    forall i, j :: 0 <= i < j < |s| ==> s[i] != s[j]
  }

  /** The total quantity the entries give product p (0 when p does not occur, as with a defaultdict). */
  function QuantityOf(c: seq<Entry>, p: int): int {
    if c == [] then 0 else (if c[0].productId == p then c[0].quantity else 0) + QuantityOf(c[1..], p)
  }

  /** combined[pid] += qty on an insertion-ordered dictionary: update pid's entry in place, or append a new one. */
  function AddLine(c: seq<Entry>, e: Entry): (r: seq<Entry>)
    ensures r != []
  {
    if c == [] then [e]
    else if c[0].productId == e.productId then [Entry(e.productId, c[0].quantity + e.quantity)] + c[1..]
    else [c[0]] + AddLine(c[1..], e)
  }

  /** The dictionary built by adding the entries one after another. */
  function Merge(es: seq<Entry>): seq<Entry> {
    if es == [] then [] else AddLine(Merge(es[..|es| - 1]), es[|es| - 1])
  }

  /** The distinct elements of s, in order of first occurrence. */
  function Dedup(s: seq<int>): seq<int> {
    if s == [] then []
    else
      var d := Dedup(s[..|s| - 1]);
      if s[|s| - 1] in d then d else d + [s[|s| - 1]]
  }

  lemma {:induction false} DedupDistinct(s: seq<int>)
    ensures Distinct(Dedup(s))
    ensures forall x :: x in Dedup(s) <==> x in s
  {
    if s != [] {
      DedupDistinct(s[..|s| - 1]);
      assert s == s[..|s| - 1] + [s[|s| - 1]];
    }
  }

  lemma {:induction false} AddLineIds(c: seq<Entry>, e: Entry)
    ensures Ids(AddLine(c, e)) == if e.productId in Ids(c) then Ids(c) else Ids(c) + [e.productId]
  {
    if c != [] {
      IdsCons(c[0], c[1..]);
      assert [c[0]] + c[1..] == c;
      if c[0].productId == e.productId {
        IdsCons(Entry(e.productId, c[0].quantity + e.quantity), c[1..]);
      } else {
        AddLineIds(c[1..], e);
        IdsCons(c[0], AddLine(c[1..], e));
        assert e.productId in Ids(c) <==> e.productId in Ids(c[1..]);
      }
    }
  }

  lemma IdsCons(x: Entry, c: seq<Entry>)
    ensures Ids([x] + c) == [x.productId] + Ids(c)
  {
  }

  lemma {:induction false} AddLineQuantity(c: seq<Entry>, e: Entry, p: int)
    ensures QuantityOf(AddLine(c, e), p) == QuantityOf(c, p) + (if p == e.productId then e.quantity else 0)
  {
    if c != [] && c[0].productId != e.productId {
      AddLineQuantity(c[1..], e, p);
      assert AddLine(c, e)[1..] == AddLine(c[1..], e);
    } else if c != [] {
      assert AddLine(c, e)[1..] == c[1..];
    } else {
      assert AddLine(c, e)[1..] == [];
    }
  }

  lemma {:induction false} QuantityOfAppend(c: seq<Entry>, e: Entry, p: int)
    ensures QuantityOf(c + [e], p) == QuantityOf(c, p) + (if p == e.productId then e.quantity else 0)
  {
    if c != [] {
      assert (c + [e])[1..] == c[1..] + [e];
      QuantityOfAppend(c[1..], e, p);
    } else {
      assert (c + [e])[1..] == [];
    }
  }

  /** The merged dictionary's keys are the distinct requested ids, in order of first request. */
  lemma {:induction false} MergeIds(es: seq<Entry>)
    ensures Ids(Merge(es)) == Dedup(Ids(es))
  {
    if es != [] {
      var init := es[..|es| - 1];
      MergeIds(init);
      AddLineIds(Merge(init), es[|es| - 1]);
      assert Ids(es)[..|es| - 1] == Ids(init);
    }
  }

  /** Each product's merged quantity is the sum of all its requested quantities: duplicates are summed. */
  lemma {:induction false} MergeQuantity(es: seq<Entry>, p: int)
    ensures QuantityOf(Merge(es), p) == QuantityOf(es, p)
  {
    if es != [] {
      var init := es[..|es| - 1];
      MergeQuantity(init, p);
      AddLineQuantity(Merge(init), es[|es| - 1], p);
      assert es == init + [es[|es| - 1]];
      QuantityOfAppend(init, es[|es| - 1], p);
    }
  }

  /** Merged keys are distinct and are exactly the requested ids. */
  lemma MergeKeys(es: seq<Entry>)
    ensures Distinct(Ids(Merge(es)))
    ensures forall p :: p in Ids(Merge(es)) <==> p in Ids(es)
  {
    MergeIds(es);
    DedupDistinct(Ids(es));
  }

  lemma {:induction false} AddLinePositive(c: seq<Entry>, e: Entry)
    requires e.quantity > 0 && forall i :: 0 <= i < |c| ==> c[i].quantity > 0
    ensures forall i :: 0 <= i < |AddLine(c, e)| ==> AddLine(c, e)[i].quantity > 0
  {
    if c != [] && c[0].productId != e.productId {
      AddLinePositive(c[1..], e);
    }
  }

  /** Merging positive quantities gives positive quantities. */
  lemma {:induction false} MergePositive(es: seq<Entry>)
    requires forall i :: 0 <= i < |es| ==> es[i].quantity > 0
    ensures forall i :: 0 <= i < |Merge(es)| ==> Merge(es)[i].quantity > 0
  {
    if es != [] {
      MergePositive(es[..|es| - 1]);
      AddLinePositive(Merge(es[..|es| - 1]), es[|es| - 1]);
    }
  }

  lemma {:induction false} AddLineNew(c: seq<Entry>, e: Entry)
    requires e.productId !in Ids(c)
    ensures AddLine(c, e) == c + [e]
  {
    if c != [] {
      assert Ids(c) == [c[0].productId] + Ids(c[1..]);
      AddLineNew(c[1..], e);
    }
  }

  /** A request without duplicate ids merges to itself, in the same order. */
  lemma {:induction false} MergeOfDistinct(es: seq<Entry>)
    requires Distinct(Ids(es))
    ensures Merge(es) == es
  {
    if es != [] {
      var init := es[..|es| - 1];
      assert Ids(init) == Ids(es)[..|es| - 1];
      MergeOfDistinct(init);
      AddLineNew(init, es[|es| - 1]);
    }
  }

  // ---------------------------------------------------------------------------
  // combine_items
  // ---------------------------------------------------------------------------

  /** How one request line fares: parsed, malformed, or a quantity that is not positive. */
  datatype Checked = Good(entry: Entry) | BadFormat | BadQuantity(productId: int)

  function CheckLine(it: RawItem): Checked {
    if it.NotAnObject? || !it.productId.Integral? || !it.quantity.Integral? then BadFormat
    else if it.quantity.value <= 0 then BadQuantity(it.productId.value)
    else Good(Entry(it.productId.value, it.quantity.value))
  }

  /** The error reported for a bad line: the line itself for a malformed one, its product id for a bad quantity. */
  function LineError(it: RawItem): SaleError
    requires !CheckLine(it).Good?
  {
    match CheckLine(it)
    case BadFormat => InvalidItem(it)
    case BadQuantity(p) => InvalidQuantity(p)
  }

  /** The lines scanned in order; the first bad line stops the scan. */
  function Scan(lines: seq<RawItem>): (r: Result<seq<Entry>, SaleError>)
    ensures r.Failure? ==> r.error.InvalidItem? || r.error.InvalidQuantity?
  {
    if lines == [] then Success([])
    else
      match Scan(lines[..|lines| - 1])
      case Failure(e) => Failure(e)
      case Success(c) =>
        var last := lines[|lines| - 1];
        match CheckLine(last)
        case Good(e) => Success(AddLine(c, e))
        case _ => Failure(LineError(last))
  }

  /** combine_items: the merged request, or the reason the whole request is rejected. */
  function Combine(items: RawItems): (r: Result<seq<Entry>, SaleError>)
    ensures items.NotAList? || items.lines == [] ==> r == Failure(InvalidInput)
    ensures r.Failure? ==> r.error.InvalidInput? || r.error.InvalidItem? || r.error.InvalidQuantity?
  {
    if items.NotAList? || items.lines == [] then Failure(InvalidInput) else Scan(items.lines)
  }

  predicate AllGood(lines: seq<RawItem>) {
    forall i :: 0 <= i < |lines| ==> CheckLine(lines[i]).Good?
  }

  /** Line k is bad and every line before it is good. */
  predicate FirstBad(lines: seq<RawItem>, k: nat) {
    k < |lines| && !CheckLine(lines[k]).Good? && forall i :: 0 <= i < k ==> CheckLine(lines[i]).Good?
  }

  function GoodEntries(lines: seq<RawItem>): (es: seq<Entry>)
    requires AllGood(lines)
    ensures |es| == |lines|
    ensures forall i :: 0 <= i < |es| ==> es[i].quantity > 0
  {
    seq(|lines|, i requires 0 <= i < |lines| => CheckLine(lines[i]).entry)
  }

  lemma {:induction false} ScanGood(lines: seq<RawItem>)
    requires AllGood(lines)
    ensures Scan(lines) == Success(Merge(GoodEntries(lines)))
  {
    if lines != [] {
      var init := lines[..|lines| - 1];
      ScanGood(init);
      assert GoodEntries(lines)[..|lines| - 1] == GoodEntries(init);
    }
  }

  lemma {:induction false} ScanFirstBad(lines: seq<RawItem>, k: nat)
    requires FirstBad(lines, k)
    ensures Scan(lines) == Failure(LineError(lines[k]))
  {
    if k == |lines| - 1 {
      ScanGood(lines[..k]);
    } else {
      var init := lines[..|lines| - 1];
      assert FirstBad(init, k);
      ScanFirstBad(init, k);
    }
  }

  lemma {:induction false} FirstBadExists(lines: seq<RawItem>)
    requires !AllGood(lines)
    ensures exists k :: FirstBad(lines, k)
  {
    var k := 0;
    while CheckLine(lines[k]).Good?
      decreases |lines| - k
      invariant 0 <= k < |lines|
      invariant forall i :: 0 <= i < k ==> CheckLine(lines[i]).Good?
      invariant exists j :: k <= j < |lines| && !CheckLine(lines[j]).Good?
    {
      k := k + 1;
    }
    assert FirstBad(lines, k);
  }

  /**
    combine_items rejects a non-list or empty list with invalid_input; otherwise
    the first bad line in order decides the error (invalid_item for a missing or
    non-integer field, invalid_quantity for a quantity <= 0), even when later
    lines are valid; and when every line is good the result is the merge of all
    lines.
  */
  lemma CombineOutcome(items: RawItems)
    ensures (items.NotAList? || items.lines == []) ==> Combine(items) == Failure(InvalidInput)
    ensures items.Items? && items.lines != [] && AllGood(items.lines) ==>
      Combine(items) == Success(Merge(GoodEntries(items.lines)))
    ensures items.Items? && items.lines != [] && !AllGood(items.lines) ==>
      exists k: nat :: FirstBad(items.lines, k) && Combine(items) == Failure(LineError(items.lines[k]))
  {
    if items.Items? && items.lines != [] {
      if AllGood(items.lines) {
        ScanGood(items.lines);
      } else {
        FirstBadExists(items.lines);
        var k :| FirstBad(items.lines, k);
        ScanFirstBad(items.lines, k);
      }
    }
  }

  /**
    On success the merged map's keys are exactly the distinct requested ids,
    each once; each key's quantity is the sum of that id's requested quantities
    and is positive; and the map is not empty.
  */
  lemma CombineSuccess(items: RawItems)
    requires Combine(items).Success?
    ensures items.Items? && AllGood(items.lines)
    ensures var c := Combine(items).value;
      && c != []
      && Distinct(Ids(c))
      && (forall p :: p in Ids(c) <==> p in Ids(GoodEntries(items.lines)))
      && (forall p :: QuantityOf(c, p) == QuantityOf(GoodEntries(items.lines), p))
      && (forall i :: 0 <= i < |c| ==> c[i].quantity > 0)
  {
    CombineOutcome(items);
    var es := GoodEntries(items.lines);
    MergeKeys(es);
    forall p ensures QuantityOf(Merge(es), p) == QuantityOf(es, p) {
      MergeQuantity(es, p);
    }
    MergePositive(es);
  }

  /** The loop of combine_items over the request's lines. */
  method CombineItems(items: RawItems) returns (r: Result<seq<Entry>, SaleError>)
    ensures r == Combine(items)
  {
    if items.NotAList? || items.lines == [] {
      return Failure(InvalidInput);
    }
    var lines := items.lines;
    var combined: seq<Entry> := [];
    var i := 0;
    while i < |lines|
      invariant 0 <= i <= |lines|
      invariant Scan(lines[..i]) == Success(combined)
      invariant forall k :: 0 <= k < i ==> CheckLine(lines[k]).Good?
    {
      assert lines[..i + 1][..i] == lines[..i];
      var checked := CheckLine(lines[i]);
      if !checked.Good? {
        ScanFirstBad(lines, i);
        return Failure(LineError(lines[i]));
      }
      combined := AddLine(combined, checked.entry);
      i := i + 1;
    }
    assert lines[..|lines|] == lines;
    return Success(combined);
  }

  // ---------------------------------------------------------------------------
  // fetch_products
  // ---------------------------------------------------------------------------

  /** The requested ids with no product row, in request order. */
  function Missing(db: map<int, Product>, ids: seq<int>): (m: seq<int>)
    ensures forall x :: x in m <==> x in ids && x !in db
    ensures |m| <= |ids|
  {
    if ids == [] then [] else (if ids[0] in db then [] else [ids[0]]) + Missing(db, ids[1..])
  }

  /** One requested id is missing exactly when it has no row. */
  lemma MissingOne(db: map<int, Product>, x: int)
    ensures Missing(db, [x]) == if x in db then [] else [x]
  {
    assert [x][1..] == [];
  }

  /** The missing ids of a request are those of its first part followed by those of the rest: an order-keeping filter. */
  lemma {:induction false} MissingAppend(db: map<int, Product>, a: seq<int>, b: seq<int>)
    ensures Missing(db, a + b) == Missing(db, a) + Missing(db, b)
    decreases |a|
  {
    if a == [] {
      assert a + b == b;
    } else {
      assert (a + b)[0] == a[0];
      assert (a + b)[1..] == a[1..] + b;
      MissingAppend(db, a[1..], b);
    }
  }

  /** fetch_products: the rows of the requested ids, or product_not_found naming every missing id. */
  function FetchProducts(db: map<int, Product>, ids: seq<int>): (r: Result<map<int, Product>, SaleError>)
    ensures r.Failure? <==> exists i :: 0 <= i < |ids| && ids[i] !in db
    ensures r.Failure? ==> r.error == ProductNotFound(Missing(db, ids))
    ensures r.Success? ==> r.value.Keys == set i | 0 <= i < |ids| :: ids[i]
    ensures r.Success? ==> forall p :: p in r.value ==> p in db && r.value[p] == db[p]
  {
    var missing := Missing(db, ids);
    if missing != [] then
      assert missing[0] in ids;
      Failure(ProductNotFound(missing))
    else
      Success(map p | p in ids && p in db :: db[p])
  }

  // ---------------------------------------------------------------------------
  // check_stock
  // ---------------------------------------------------------------------------

  /** Every entry's product has a row. */
  predicate Covers(rows: map<int, Product>, c: seq<Entry>) {
    forall i :: 0 <= i < |c| ==> c[i].productId in rows
  }

  predicate Short(rows: map<int, Product>, e: Entry)
    requires e.productId in rows
  {
    e.quantity > rows[e.productId].quantity
  }

  function Shortage(rows: map<int, Product>, e: Entry): SaleError
    requires e.productId in rows
  {
    NotEnoughStock(e.productId, rows[e.productId].name, rows[e.productId].quantity, e.quantity)
  }

  /**
    check_stock: no error exactly when every entry asks for no more than is on
    hand; otherwise not_enough_stock for the first entry, in dictionary order,
    that asks for more.
  */
  function StockShortfall(rows: map<int, Product>, c: seq<Entry>): (r: Option<SaleError>)
    requires Covers(rows, c)
    ensures r.None? <==> forall i :: 0 <= i < |c| ==> !Short(rows, c[i])
    ensures r.Some? ==> exists k :: 0 <= k < |c| && Short(rows, c[k]) && r.value == Shortage(rows, c[k])
                                   && forall i :: 0 <= i < k ==> !Short(rows, c[i])
  {
    if c == [] then None
    else if Short(rows, c[0]) then Some(Shortage(rows, c[0]))
    else
      var r := StockShortfall(rows, c[1..]);
      assert forall i :: 1 <= i < |c| ==> c[i] == c[1..][i - 1];
      r
  }

  /** The loop of check_stock. */
  method CheckStock(rows: map<int, Product>, c: seq<Entry>) returns (r: Option<SaleError>)
    requires Covers(rows, c)
    ensures r == StockShortfall(rows, c)
  {
    var i := 0;
    while i < |c|
      invariant 0 <= i <= |c|
      invariant StockShortfall(rows, c) == StockShortfall(rows, c[i..])
    {
      assert c[i..][1..] == c[i + 1..];
      if c[i].quantity > rows[c[i].productId].quantity {
        return Some(Shortage(rows, c[i]));
      }
      i := i + 1;
    }
    return None;
  }

  // ---------------------------------------------------------------------------
  // calc_lines_and_total
  // ---------------------------------------------------------------------------

  datatype LineSummary = LineSummary(productId: int, name: string, unitPrice: int, quantity: int, lineTotal: int)

  /** One receipt line: the product's name and unit price, the quantity and price x quantity. */
  function Summarize(rows: map<int, Product>, e: Entry): LineSummary
    requires e.productId in rows
  {
    var p := rows[e.productId];
    LineSummary(e.productId, p.name, p.price, e.quantity, p.price * e.quantity)
  }

  function Summaries(rows: map<int, Product>, c: seq<Entry>): (ls: seq<LineSummary>)
    requires Covers(rows, c)
    ensures |ls| == |c|
  {
    seq(|c|, i requires 0 <= i < |c| => Summarize(rows, c[i]))
  }

  /** The sum of the lines' totals. */
  function SumOfLineTotals(ls: seq<LineSummary>): int {
    if ls == [] then 0 else SumOfLineTotals(ls[..|ls| - 1]) + ls[|ls| - 1].lineTotal
  }

  /** The value of the entries at the rows' prices: the sum of price x quantity. */
  function Subtotal(rows: map<int, Product>, c: seq<Entry>): int
    requires Covers(rows, c)
  {
    if c == [] then 0 else rows[c[0].productId].price * c[0].quantity + Subtotal(rows, c[1..])
  }

  lemma {:induction false} SumOfLineTotalsPrepend(l: LineSummary, ls: seq<LineSummary>)
    ensures SumOfLineTotals([l] + ls) == l.lineTotal + SumOfLineTotals(ls)
    decreases |ls|
  {
    if ls != [] {
      assert ([l] + ls)[..|ls|] == [l] + ls[..|ls| - 1];
      SumOfLineTotalsPrepend(l, ls[..|ls| - 1]);
    } else {
      assert ([l] + ls)[..0] == [];
    }
  }

  /** Summing the rounded line totals gives the value of the sale at the rows' prices. */
  lemma {:induction false} LineTotalsAreSubtotal(rows: map<int, Product>, c: seq<Entry>)
    requires Covers(rows, c)
    ensures SumOfLineTotals(Summaries(rows, c)) == Subtotal(rows, c)
  {
    if c != [] {
      LineTotalsAreSubtotal(rows, c[1..]);
      assert Summaries(rows, c) == [Summarize(rows, c[0])] + Summaries(rows, c[1..]);
      SumOfLineTotalsPrepend(Summarize(rows, c[0]), Summaries(rows, c[1..]));
    }
  }

  /** The loop of calc_lines_and_total: one line per entry in dictionary order; the total is the sum of the line totals. */
  method CalcLinesAndTotal(rows: map<int, Product>, c: seq<Entry>) returns (lines: seq<LineSummary>, total: int)
    requires Covers(rows, c)
    ensures |lines| == |c|
    ensures forall i :: 0 <= i < |c| ==> lines[i] == Summarize(rows, c[i])
    ensures total == SumOfLineTotals(lines)
  {
    lines := [];
    total := 0;
    var i := 0;
    while i < |c|
      invariant 0 <= i <= |c|
      invariant |lines| == i
      invariant forall k :: 0 <= k < i ==> lines[k] == Summarize(rows, c[k])
      invariant total == SumOfLineTotals(lines)
    {
      var line := Summarize(rows, c[i]);
      assert (lines + [line])[..i] == lines;
      total := total + line.lineTotal;
      lines := lines + [line];
      i := i + 1;
    }
  }

  // ---------------------------------------------------------------------------
  // low_stock_warnings
  // ---------------------------------------------------------------------------

  /** One low-stock advisory: the product, its name and what will remain of it. */
  datatype Warning = Warning(productId: int, name: string, remaining: int)

  /** What stays on hand after the entry is sold. */
  function Remaining(rows: map<int, Product>, e: Entry): int
    requires e.productId in rows
  {
    rows[e.productId].quantity - e.quantity
  }

  /** The advisory for an entry. */
  function WarningOf(rows: map<int, Product>, e: Entry): Warning
    requires e.productId in rows
  {
    Warning(e.productId, rows[e.productId].name, Remaining(rows, e))
  }

  /** The advisories, one per entry whose remaining quantity is at most the threshold, in dictionary order. */
  function LowStock(rows: map<int, Product>, c: seq<Entry>, threshold: int): (ws: seq<Warning>)
    requires Covers(rows, c)
    ensures |ws| <= |c|
  {
    if c == [] then []
    else
      var e := c[|c| - 1];
      LowStock(rows, c[..|c| - 1], threshold) + (if Remaining(rows, e) <= threshold then [WarningOf(rows, e)] else [])
  }

  /** Every advisory is the advisory of an entry whose remaining quantity is at most the threshold. */
  lemma {:induction false} LowStockSound(rows: map<int, Product>, c: seq<Entry>, threshold: int)
    requires Covers(rows, c)
    ensures forall w :: w in LowStock(rows, c, threshold) ==>
      exists i :: 0 <= i < |c| && Remaining(rows, c[i]) <= threshold && w == WarningOf(rows, c[i])
  {
    if c != [] {
      var init := c[..|c| - 1];
      LowStockSound(rows, init, threshold);
      forall w | w in LowStock(rows, c, threshold)
        ensures exists i :: 0 <= i < |c| && Remaining(rows, c[i]) <= threshold && w == WarningOf(rows, c[i])
      {
        if w in LowStock(rows, init, threshold) {
          var i :| 0 <= i < |init| && Remaining(rows, init[i]) <= threshold && w == WarningOf(rows, init[i]);
          assert c[i] == init[i];
        } else {
          assert w == WarningOf(rows, c[|c| - 1]);
        }
      }
    }
  }

  /** Every entry whose remaining quantity is at most the threshold gets its advisory. */
  lemma {:induction false} LowStockComplete(rows: map<int, Product>, c: seq<Entry>, threshold: int)
    requires Covers(rows, c)
    ensures forall i :: 0 <= i < |c| && Remaining(rows, c[i]) <= threshold ==> WarningOf(rows, c[i]) in LowStock(rows, c, threshold)
  {
    if c != [] {
      var init := c[..|c| - 1];
      LowStockComplete(rows, init, threshold);
      forall i | 0 <= i < |c| - 1 && Remaining(rows, c[i]) <= threshold
        ensures WarningOf(rows, c[i]) in LowStock(rows, c, threshold)
      {
        assert c[i] == init[i];
      }
    }
  }

  /** No two advisories are about the same product. */
  predicate OncePerProduct(ws: seq<Warning>) {
    forall j, k :: 0 <= j < k < |ws| ==> ws[j].productId != ws[k].productId
  }

  /** With distinct products, no product is advised about twice. */
  lemma {:induction false} LowStockOncePerProduct(rows: map<int, Product>, c: seq<Entry>, threshold: int)
    requires Covers(rows, c) && Distinct(Ids(c))
    ensures OncePerProduct(LowStock(rows, c, threshold))
  {
    if c != [] {
      var init := c[..|c| - 1];
      assert Ids(init) == Ids(c)[..|c| - 1];
      LowStockOncePerProduct(rows, init, threshold);
      LowStockSound(rows, init, threshold);
      var wi := LowStock(rows, init, threshold);
      forall j | 0 <= j < |wi| ensures wi[j].productId != c[|c| - 1].productId {
        assert wi[j] in wi;
        var i :| 0 <= i < |init| && Remaining(rows, init[i]) <= threshold && wi[j] == WarningOf(rows, init[i]);
        assert Ids(c)[i] == init[i].productId;
      }
      var ws := LowStock(rows, c, threshold);
      if Remaining(rows, c[|c| - 1]) <= threshold {
        assert ws == wi + [WarningOf(rows, c[|c| - 1])];
        forall j, k | 0 <= j < k < |ws| ensures ws[j].productId != ws[k].productId {
          assert ws[j] == wi[j];
          if k < |wi| {
            assert ws[k] == wi[k];
          } else {
            assert ws[k].productId == c[|c| - 1].productId;
          }
        }
      } else {
        assert ws == wi;
      }
    }
  }

  /** The advisory text: "⚠️ Stock for '<name>' is low (<remaining> left)". */
  function WarningText(w: Warning): string {
    "\U{26A0}\U{FE0F} Stock for '" + w.name + "' is low (" + IntText(w.remaining) + " left)"
  }

  /** The loop of low_stock_warnings; it reads the rows and changes nothing. */
  method LowStockWarnings(rows: map<int, Product>, c: seq<Entry>, threshold: int) returns (texts: seq<string>)
    requires Covers(rows, c)
    ensures |texts| == |LowStock(rows, c, threshold)|
    ensures forall i :: 0 <= i < |texts| ==> texts[i] == WarningText(LowStock(rows, c, threshold)[i])
  {
    texts := [];
    var i := 0;
    while i < |c|
      invariant 0 <= i <= |c|
      invariant |texts| == |LowStock(rows, c[..i], threshold)|
      invariant forall k :: 0 <= k < |texts| ==> texts[k] == WarningText(LowStock(rows, c[..i], threshold)[k])
    {
      assert c[..i + 1][..i] == c[..i];
      var remaining := rows[c[i].productId].quantity - c[i].quantity;
      if remaining <= threshold {
        texts := texts + [WarningText(WarningOf(rows, c[i]))];
      }
      i := i + 1;
    }
    assert c[..|c|] == c;
  }

  // ---------------------------------------------------------------------------
  // The checks before the sale is written
  // ---------------------------------------------------------------------------

  /** What sell_products has computed when it starts writing. */
  datatype Plan = Plan(combined: seq<Entry>, rows: map<int, Product>, lines: seq<LineSummary>, total: int)

  lemma IdsCovered(rows: map<int, Product>, c: seq<Entry>)
    requires rows.Keys == set i | 0 <= i < |Ids(c)| :: Ids(c)[i]
    ensures Covers(rows, c)
  {
    assert forall i :: 0 <= i < |c| ==> c[i].productId == Ids(c)[i];
  }

  /** combine_items, fetch_products, check_stock and calc_lines_and_total in the order sell_products runs them. */
  function PlanSale(db: map<int, Product>, items: RawItems): (r: Result<Plan, SaleError>)
    ensures r.Failure? ==> r.error.InvalidInput? || r.error.InvalidItem? || r.error.InvalidQuantity?
                           || r.error.ProductNotFound? || r.error.NotEnoughStock?
    ensures r.Success? ==> Combine(items) == Success(r.value.combined) && |r.value.lines| == |r.value.combined|
  {
    match Combine(items)
    case Failure(e) => Failure(e)
    case Success(c) =>
      match FetchProducts(db, Ids(c))
      case Failure(e) => Failure(e)
      case Success(rows) =>
        IdsCovered(rows, c);
        match StockShortfall(rows, c)
        case Some(e) => Failure(e)
        case None =>
          var lines := Summaries(rows, c);
          Success(Plan(c, rows, lines, SumOfLineTotals(lines)))
  }

  /** A plan has a row for each of its entries. */
  lemma PlanCovers(db: map<int, Product>, items: RawItems)
    requires PlanSale(db, items).Success?
    ensures Covers(PlanSale(db, items).value.rows, PlanSale(db, items).value.combined)
  {
    var c := Combine(items).value;
    IdsCovered(FetchProducts(db, Ids(c)).value, c);
  }

  /** A planned sale is internally consistent. */
  ghost predicate SoundPlan(db: map<int, Product>, plan: Plan) {
    var c := plan.combined;
    && c != []
    && Distinct(Ids(c))
    && (forall i :: 0 <= i < |c| ==> c[i].productId in db && c[i].productId in plan.rows)
    && (forall p :: p in plan.rows ==> p in db && plan.rows[p] == db[p])
    && (forall i :: 0 <= i < |c| ==> 0 < c[i].quantity <= db[c[i].productId].quantity)
    && Covers(plan.rows, c)
    && plan.lines == Summaries(plan.rows, c)
    && plan.total == Subtotal(db, c)
  }

  lemma SubtotalSameRows(rows: map<int, Product>, db: map<int, Product>, c: seq<Entry>)
    requires Covers(rows, c) && Covers(db, c)
    requires forall i :: 0 <= i < |c| ==> rows[c[i].productId] == db[c[i].productId]
    ensures Subtotal(rows, c) == Subtotal(db, c)
  {
    if c != [] {
      SubtotalSameRows(rows, db, c[1..]);
    }
  }

  /**
    A planned sale sells each distinct requested product once, a positive
    quantity no greater than its stock, priced from its own row, and its total
    is the value of the sold quantities at those prices.
  */
  lemma PlanSaleSound(db: map<int, Product>, items: RawItems)
    requires PlanSale(db, items).Success?
    ensures SoundPlan(db, PlanSale(db, items).value)
  {
    var c := Combine(items).value;
    CombineSuccess(items);
    var rows := FetchProducts(db, Ids(c)).value;
    IdsCovered(rows, c);
    LineTotalsAreSubtotal(rows, c);
    SubtotalSameRows(rows, db, c);
  }

  /**
    A request is planned exactly when it passes validation, every product it
    names exists, and no merged entry asks for more than is on hand.
  */
  lemma PlanSaleSucceedsIff(db: map<int, Product>, items: RawItems)
    ensures PlanSale(db, items).Success? <==>
      Combine(items).Success? &&
      var c := Combine(items).value;
      Covers(db, c) && forall i :: 0 <= i < |c| ==> c[i].quantity <= db[c[i].productId].quantity
  {
    if Combine(items).Success? {
      var c := Combine(items).value;
      var f := FetchProducts(db, Ids(c));
      if f.Success? {
        IdsCovered(f.value, c);
        assert Covers(db, c);
        assert forall i :: 0 <= i < |c| ==> Short(f.value, c[i]) == (c[i].quantity > db[c[i].productId].quantity);
      } else {
        var i :| 0 <= i < |Ids(c)| && Ids(c)[i] !in db;
        assert c[i].productId !in db;
      }
    }
  }

  // ---------------------------------------------------------------------------
  // The committed ledger's rows
  // ---------------------------------------------------------------------------

  /** A total_transaction row. */
  datatype Header = Header(id: int, totalAmount: int, dateAndTime: DateTime, paymentMethod: string)

  /** An each_transaction row: the product's name and unit price are copied, not its id. */
  datatype LedgerLine = LedgerLine(name: string, transactionId: int, price: int, quantity: int)

  // ---------------------------------------------------------------------------
  // checkout_sale's payment method, and the QR payload
  // ---------------------------------------------------------------------------

  const PaymentMethods: set<string> := {"cash", "credit", "qr", "wallet"}

  /**
    (payment_method or "cash").lower(), then the check against the allowed set:
    an absent or empty method means cash; otherwise the lower-cased method must
    be one of the four.
  */
  function ResolvePaymentMethod(given: Option<string>): (r: Result<string, SaleError>)
    ensures r.Success? ==> r.value in PaymentMethods
    ensures (given.None? || given == Some("")) ==> r == Success("cash")
    ensures given.Some? && given.value != "" ==>
      (r.Success? <==> Lower(given.value) in PaymentMethods) && (r.Success? ==> r.value == Lower(given.value))
    ensures r.Failure? ==> r.error == InvalidPaymentMethod
  {
    var m := if given.None? || given.value == "" then "cash" else Lower(given.value);
    if m in PaymentMethods then Success(m) else Failure(InvalidPaymentMethod)
  }

  /** The payment method's letter case does not matter. */
  lemma PaymentMethodIgnoresCase(s: string)
    ensures ResolvePaymentMethod(Some(s)) == ResolvePaymentMethod(Some(Lower(s)))
  {
    LowerIdempotent(s);
  }

  /** _build_demo_qr_payload: "PAYMENT|TX:<id>|AMT:<amount with two decimals>". */
  function QrPayload(transactionId: int, amount: int): string {
    "PAYMENT|TX:" + (IntText(transactionId) + ("|AMT:" + CentsText(amount)))
  }

  lemma IntTextHasNoBar(n: int)
    ensures '|' !in IntText(n)
  {
    if n < 0 {
      assert IntText(n) == "-" + Numeral(-n);
    }
  }

  lemma AmountTagSplits(x: string)
    ensures "|AMT:" + x == ['|'] + ("AMT:" + x)
  {
  }

  /** The payload identifies the transaction and the amount: different sales give different payloads. */
  lemma QrPayloadIdentifiesSale(t1: int, a1: int, t2: int, a2: int)
    requires QrPayload(t1, a1) == QrPayload(t2, a2)
    ensures t1 == t2 && a1 == a2
  {
    var r1 := IntText(t1) + ("|AMT:" + CentsText(a1));
    var r2 := IntText(t2) + ("|AMT:" + CentsText(a2));
    Calendar.SplitSameLength("PAYMENT|TX:", r1, "PAYMENT|TX:", r2);
    IntTextHasNoBar(t1);
    IntTextHasNoBar(t2);
    AmountTagSplits(CentsText(a1));
    AmountTagSplits(CentsText(a2));
    SplitAtSeparator(IntText(t1), "AMT:" + CentsText(a1), IntText(t2), "AMT:" + CentsText(a2), '|');
    IntTextInjective(t1, t2);
    Calendar.SplitSameLength("AMT:", CentsText(a1), "AMT:", CentsText(a2));
    CentsTextInjective(a1, a2);
  }
}
