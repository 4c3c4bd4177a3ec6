/**
  sell_products and checkout_sale as a state transition of the shop's
  database and of the in-memory QR status dictionary. The database is a
  class with four parts: the product table, the transaction headers, the
  transaction lines and the id SQLite gives the next header. A sale either does
  everything (one header, one line per product, one stock update per product)
  or, on any error, nothing.
*/
module SalesCommit {
  import opened Wrappers
  import opened Calendar
  import opened Sales
  import opened QrTracker

  // ---------------------------------------------------------------------------
  // The effect of the stock updates
  // ---------------------------------------------------------------------------

  /** UPDATE product SET quantity = quantity - qty, total_sales = total_sales + qty WHERE product_id = pid. */
  function UpdateStockIn(db: map<int, Product>, e: Entry): (r: map<int, Product>)
    ensures r.Keys == db.Keys
  {
    if e.productId in db then
      db[e.productId := db[e.productId].(quantity := db[e.productId].quantity - e.quantity,
                                         totalSales := db[e.productId].totalSales + e.quantity)]
    else db
  }

  /** The product table after the stock updates of all entries, in order. */
  function ApplySale(db: map<int, Product>, c: seq<Entry>): (r: map<int, Product>)
    ensures r.Keys == db.Keys
  {
    if c == [] then db else UpdateStockIn(ApplySale(db, c[..|c| - 1]), c[|c| - 1])
  }

  /**
    After the updates every product is still there with its name and price; its
    stock has dropped and its units sold have risen by exactly the quantity the
    entries sell of it.
  */
  lemma {:induction false} ApplySaleEffect(db: map<int, Product>, c: seq<Entry>)
    ensures ApplySale(db, c).Keys == db.Keys
    ensures forall p :: p in db ==>
      && ApplySale(db, c)[p].name == db[p].name
      && ApplySale(db, c)[p].price == db[p].price
      && ApplySale(db, c)[p].quantity == db[p].quantity - QuantityOf(c, p)
      && ApplySale(db, c)[p].totalSales == db[p].totalSales + QuantityOf(c, p)
  {
    if c != [] {
      var init := c[..|c| - 1];
      ApplySaleEffect(db, init);
      assert c == init + [c[|c| - 1]];
      forall p | p in db
        ensures QuantityOf(c, p) == QuantityOf(init, p) + (if p == c[|c| - 1].productId then c[|c| - 1].quantity else 0)
      {
        QuantityOfAppend(init, c[|c| - 1], p);
      }
    }
  }

  lemma {:induction false} QuantityOfAbsent(c: seq<Entry>, p: int)
    requires p !in Ids(c)
    ensures QuantityOf(c, p) == 0
  {
    if c != [] {
      assert Ids(c) == [c[0].productId] + Ids(c[1..]);
      QuantityOfAbsent(c[1..], p);
    }
  }

  lemma {:induction false} QuantityOfDistinct(c: seq<Entry>, i: nat)
    requires Distinct(Ids(c)) && i < |c|
    ensures QuantityOf(c, c[i].productId) == c[i].quantity
  {
    assert Ids(c) == [c[0].productId] + Ids(c[1..]);
    if i == 0 {
      QuantityOfAbsent(c[1..], c[0].productId);
    } else {
      assert Distinct(Ids(c[1..]));
      QuantityOfDistinct(c[1..], i - 1);
    }
  }

  /** Products the sale does not name are left exactly as they were. */
  lemma UnsoldUnchanged(db: map<int, Product>, c: seq<Entry>, p: int)
    requires p in db && p !in Ids(c)
    ensures ApplySale(db, c)[p] == db[p]
  {
    ApplySaleEffect(db, c);
    QuantityOfAbsent(c, p);
  }

  /** Stock on hand plus units sold is the same before and after a sale, product by product. */
  lemma StockPlusSoldConserved(db: map<int, Product>, c: seq<Entry>, p: int)
    requires p in db
    ensures ApplySale(db, c)[p].quantity + ApplySale(db, c)[p].totalSales == db[p].quantity + db[p].totalSales
  {
    ApplySaleEffect(db, c);
  }

  /** No product has negative stock. */
  predicate NonNegativeStock(db: map<int, Product>) {
    forall p :: p in db ==> db[p].quantity >= 0
  }

  /** A planned sale never drives stock below zero, and each sold product's stock drops by its merged quantity. */
  lemma PlannedSaleKeepsStock(db: map<int, Product>, items: RawItems)
    requires PlanSale(db, items).Success? && NonNegativeStock(db)
    ensures NonNegativeStock(ApplySale(db, PlanSale(db, items).value.combined))
    ensures var c := PlanSale(db, items).value.combined;
      forall i :: 0 <= i < |c| ==> ApplySale(db, c)[c[i].productId].quantity == db[c[i].productId].quantity - c[i].quantity
  {
    PlanSaleSound(db, items);
    var c := PlanSale(db, items).value.combined;
    ApplySaleEffect(db, c);
    forall p | p in db ensures ApplySale(db, c)[p].quantity >= 0 {
      if p in Ids(c) {
        var i :| 0 <= i < |Ids(c)| && Ids(c)[i] == p;
        QuantityOfDistinct(c, i);
      } else {
        QuantityOfAbsent(c, p);
      }
    }
    forall i | 0 <= i < |c| ensures ApplySale(db, c)[c[i].productId].quantity == db[c[i].productId].quantity - c[i].quantity {
      QuantityOfDistinct(c, i);
    }
  }

  // ---------------------------------------------------------------------------
  // The ledger rows a sale writes
  // ---------------------------------------------------------------------------

  /** The each_transaction rows of a sale: name, unit price and quantity of each line, under the header's id. */
  function LedgerLines(lines: seq<LineSummary>, id: int): (ls: seq<LedgerLine>)
    ensures |ls| == |lines|
    ensures forall i :: 0 <= i < |ls| ==>
      ls[i].transactionId == id && ls[i].name == lines[i].name && ls[i].price == lines[i].unitPrice && ls[i].quantity == lines[i].quantity
  {
    seq(|lines|, i requires 0 <= i < |lines| => LedgerLine(lines[i].name, id, lines[i].unitPrice, lines[i].quantity))
  }

  /** The value of ledger rows: the sum of price x quantity. */
  function LedgerValue(ls: seq<LedgerLine>): int {
    if ls == [] then 0 else LedgerValue(ls[..|ls| - 1]) + ls[|ls| - 1].price * ls[|ls| - 1].quantity
  }

  /** The recorded lines of a sale add up to the total recorded in its header. */
  lemma {:induction false} LedgerMatchesTotal(rows: map<int, Product>, c: seq<Entry>, id: int)
    requires Covers(rows, c)
    ensures LedgerValue(LedgerLines(Summaries(rows, c), id)) == SumOfLineTotals(Summaries(rows, c))
  {
    LedgerValueOfLines(Summaries(rows, c), id);
  }

  lemma {:induction false} LedgerValueOfLines(lines: seq<LineSummary>, id: int)
    requires forall i :: 0 <= i < |lines| ==> lines[i].lineTotal == lines[i].unitPrice * lines[i].quantity
    ensures LedgerValue(LedgerLines(lines, id)) == SumOfLineTotals(lines)
  {
    if lines != [] {
      var init := lines[..|lines| - 1];
      LedgerValueOfLines(init, id);
      assert LedgerLines(lines, id)[..|lines| - 1] == LedgerLines(init, id);
    }
  }

  // ---------------------------------------------------------------------------
  // The database
  // ---------------------------------------------------------------------------

  /** Some header has the id. */
  predicate HasHeader(hs: seq<Header>, id: int) {
    exists j :: 0 <= j < |hs| && hs[j].id == id
  }

  class Store {
    var products: map<int, Product>
    var headers: seq<Header>
    var ledger: seq<LedgerLine>
    /** The id the next header gets (SQLite's rowid for the next insert): above every existing one. */
    var nextId: int

    /** Header ids increase in insertion order and stay below nextId; every line belongs to a header. */
    ghost predicate Valid()
      reads this
    {
      && (forall i :: 0 <= i < |headers| ==> headers[i].id < nextId)
      && (forall i, j :: 0 <= i < j < |headers| ==> headers[i].id < headers[j].id)
      && (forall i :: 0 <= i < |ledger| ==> HasHeader(headers, ledger[i].transactionId))
    }

    constructor(products: map<int, Product>)
      ensures Valid()
      ensures this.products == products && headers == [] && ledger == [] && nextId == 1
    {
      this.products := products;
      headers := [];
      ledger := [];
      nextId := 1;
    }

    /** INSERT INTO total_transaction, then cur.lastrowid. */
    method InsertHeader(totalAmount: int, stamp: DateTime, paymentMethod: string) returns (id: int)
      requires Valid()
      modifies this
      ensures Valid()
      ensures id == old(nextId) && nextId == old(nextId) + 1
      ensures headers == old(headers) + [Header(id, totalAmount, stamp, paymentMethod)]
      ensures HasHeader(headers, id)
      ensures products == old(products) && ledger == old(ledger)
    {
      id := nextId;
      headers := headers + [Header(id, totalAmount, stamp, paymentMethod)];
      nextId := nextId + 1;
      assert headers[|headers| - 1].id == id;
      assert forall i :: 0 <= i < |ledger| ==> HasHeader(headers, ledger[i].transactionId) by {
        forall i | 0 <= i < |ledger| ensures HasHeader(headers, ledger[i].transactionId) {
          var j :| 0 <= j < |old(headers)| && old(headers)[j].id == ledger[i].transactionId;
          assert headers[j] == old(headers)[j];
        }
      }
    }

    /** INSERT INTO each_transaction. */
    method InsertLine(line: LedgerLine)
      requires Valid() && HasHeader(headers, line.transactionId)
      modifies this
      ensures Valid()
      ensures ledger == old(ledger) + [line]
      ensures products == old(products) && headers == old(headers) && nextId == old(nextId)
    {
      ledger := ledger + [line];
    }

    /** The loop that inserts one each_transaction row per receipt line. */
    method RecordLines(id: int, lines: seq<LineSummary>)
      requires Valid() && HasHeader(headers, id)
      modifies this
      ensures Valid()
      ensures ledger == old(ledger) + LedgerLines(lines, id)
      ensures products == old(products) && headers == old(headers) && nextId == old(nextId)
    {
      var i := 0;
      while i < |lines|
        invariant 0 <= i <= |lines|
        invariant Valid()
        invariant ledger == old(ledger) + LedgerLines(lines[..i], id)
        invariant products == old(products) && headers == old(headers) && nextId == old(nextId)
      {
        var line := LedgerLine(lines[i].name, id, lines[i].unitPrice, lines[i].quantity);
        InsertLine(line);
        assert LedgerLines(lines[..i + 1], id) == LedgerLines(lines[..i], id) + [line];
        i := i + 1;
      }
      assert lines[..|lines|] == lines;
    }

    /** The loop that applies the stock update of every merged entry, in order. */
    method ApplyUpdates(c: seq<Entry>)
      requires Valid()
      modifies this
      ensures Valid()
      ensures products == ApplySale(old(products), c)
      ensures headers == old(headers) && ledger == old(ledger) && nextId == old(nextId)
    {
      var j := 0;
      while j < |c|
        invariant 0 <= j <= |c|
        invariant Valid()
        invariant products == ApplySale(old(products), c[..j])
        invariant headers == old(headers) && ledger == old(ledger) && nextId == old(nextId)
      {
        assert c[..j + 1][..j] == c[..j];
        UpdateStock(c[j]);
        j := j + 1;
      }
      assert c[..|c|] == c;
    }

    /** The stock update of one product; a missing product is left alone, as UPDATE ... WHERE matches no row. */
    method UpdateStock(e: Entry)
      requires Valid()
      modifies this
      ensures Valid()
      ensures products == UpdateStockIn(old(products), e)
      ensures headers == old(headers) && ledger == old(ledger) && nextId == old(nextId)
    {
      if e.productId in products {
        var p := products[e.productId];
        products := products[e.productId := p.(quantity := p.quantity - e.quantity, totalSales := p.totalSales + e.quantity)];
      }
    }
  }

  // ---------------------------------------------------------------------------
  // sell_products
  // ---------------------------------------------------------------------------

  /** The checks of sell_products before anything is written: combine_items, fetch_products, check_stock, calc_lines_and_total. */
  method Prepare(products: map<int, Product>, items: RawItems) returns (r: Result<Plan, SaleError>)
    ensures r == PlanSale(products, items)
  {
    var combined := CombineItems(items);
    if combined.Failure? {
      return Failure(combined.error);
    }
    var c := combined.value;
    var fetched := FetchProducts(products, Ids(c));
    if fetched.Failure? {
      return Failure(fetched.error);
    }
    var rows := fetched.value;
    IdsCovered(rows, c);
    var short := CheckStock(rows, c);
    if short.Some? {
      return Failure(short.value);
    }
    var lines, total := CalcLinesAndTotal(rows, c);
    assert lines == Summaries(rows, c);
    return Success(Plan(c, rows, lines, total));
  }

  /** Seconds the QR code of a checkout is offered for. */
  const ExpiresIn: int := 300

  /** The QR part of a receipt: the payload to encode and its lifetime. */
  datatype QrOffer = QrOffer(payload: string, expiresIn: int)

  /** The reply to a successful sale. */
  datatype Receipt = Receipt(transactionId: int, items: seq<LineSummary>, totalAmount: int, paymentMethod: string,
                             timestamp: string, warnings: seq<string>, qr: Option<QrOffer>)

  function WarningTexts(ws: seq<Warning>): (ts: seq<string>)
    ensures |ts| == |ws| && forall i :: 0 <= i < |ws| ==> ts[i] == WarningText(ws[i])
  {
    seq(|ws|, i requires 0 <= i < |ws| => WarningText(ws[i]))
  }

  /** The low-stock advisories of a planned sale. */
  function PlanWarnings(plan: Plan, threshold: int): seq<string> {
    if Covers(plan.rows, plan.combined) then WarningTexts(LowStock(plan.rows, plan.combined, threshold)) else []
  }

  /** The receipt of a planned sale committed under transaction id. */
  function ReceiptFor(plan: Plan, id: int, paymentMethod: string, stamp: DateTime, threshold: int): Receipt {
    Receipt(id, plan.lines, plan.total, paymentMethod, IsoText(stamp), PlanWarnings(plan, threshold),
            if paymentMethod == "qr" then Some(QrOffer(QrPayload(id, plan.total), ExpiresIn)) else None)
  }

  /**
    sell_products. The clocks are parameters: stamp is datetime.now() and clock
    is time.time(). storeFault says that a write before the commit raised
    RuntimeError, ValueError or OSError: the transaction is rolled back and
    db_error is reported. A failure after the commit (while building the QR
    image) is not modelled.
  */
  method SellProducts(store: Store, tracker: Tracker, items: RawItems, paymentMethod: string, threshold: int,
                      stamp: DateTime, clock: real, storeFault: bool) returns (r: Result<Receipt, SaleError>)
    requires store.Valid()
    modifies store, tracker
    ensures store.Valid()
    ensures var plan := PlanSale(old(store.products), items);
      && (r.Success? <==> plan.Success? && !storeFault)
      && (r.Failure? ==> r.error == if plan.Failure? then plan.error else DbError)
    ensures r.Failure? ==> unchanged(store) && unchanged(tracker)
    ensures r.Success? ==>
      var plan := PlanSale(old(store.products), items).value;
      var id := old(store.nextId);
      && store.headers == old(store.headers) + [Header(id, plan.total, stamp, paymentMethod)]
      && store.ledger == old(store.ledger) + LedgerLines(plan.lines, id)
      && store.products == ApplySale(old(store.products), plan.combined)
      && store.nextId == id + 1
      && r.value == ReceiptFor(plan, id, paymentMethod, stamp, threshold)
      && tracker.sessions == if paymentMethod == "qr" then OpenIn(old(tracker.sessions), id, plan.total, clock)
                             else old(tracker.sessions)
  {
    var planned := Prepare(store.products, items);
    if planned.Failure? {
      return Failure(planned.error);
    }
    var plan := planned.value;
    PlanCovers(store.products, items);
    if storeFault {
      return Failure(DbError);
    }
    var id := Commit(store, plan, paymentMethod, stamp);
    if paymentMethod == "qr" {
      tracker.Open(id, plan.total, clock);
    }
    var receipt := ReceiptOf(plan, id, paymentMethod, stamp, threshold);
    assert plan == PlanSale(old(store.products), items).value;
    return Success(receipt);
  }

  /** The writes of a sale: the header, its lines, and the stock and sales counts of every product sold. */
  method Commit(store: Store, plan: Plan, paymentMethod: string, stamp: DateTime) returns (id: int)
    requires store.Valid()
    modifies store
    ensures store.Valid()
    ensures id == old(store.nextId)
    ensures store.headers == old(store.headers) + [Header(id, plan.total, stamp, paymentMethod)]
    ensures store.ledger == old(store.ledger) + LedgerLines(plan.lines, id)
    ensures store.products == ApplySale(old(store.products), plan.combined)
    ensures store.nextId == id + 1
  {
    id := store.InsertHeader(plan.total, stamp, paymentMethod);
    store.RecordLines(id, plan.lines);
    store.ApplyUpdates(plan.combined);
  }

  /** The reply of a committed sale: its lines and total, the low-stock advisories, and the QR offer of a QR payment. */
  method ReceiptOf(plan: Plan, id: int, paymentMethod: string, stamp: DateTime, threshold: int) returns (r: Receipt)
    requires Covers(plan.rows, plan.combined)
    ensures r == ReceiptFor(plan, id, paymentMethod, stamp, threshold)
  {
    var warnings := LowStockWarnings(plan.rows, plan.combined, threshold);
    var qr: Option<QrOffer> := None;
    if paymentMethod == "qr" {
      qr := Some(QrOffer(QrPayload(id, plan.total), ExpiresIn));
    }
    assert warnings == PlanWarnings(plan, threshold);
    r := Receipt(id, plan.lines, plan.total, paymentMethod, IsoText(stamp), warnings, qr);
  }

  // ---------------------------------------------------------------------------
  // checkout_sale
  // ---------------------------------------------------------------------------

  /** sell_products' default low_stock_threshold, which checkout_sale uses. */
  const DefaultThreshold: int := 5

  /** The request body: nothing usable (a null or empty JSON value), or an object with optional items and payment method. */
  datatype Request = NoBody | Body(items: Option<RawItems>, paymentMethod: Option<string>)

  /**
    checkout_sale: missing_items without an "items" field; invalid_payment_method
    for a method outside the four (after defaulting and lower-casing); otherwise
    sell_products with the resolved method and the default threshold of 5.
  */
  method CheckoutSale(store: Store, tracker: Tracker, request: Request, stamp: DateTime, clock: real, storeFault: bool)
    returns (r: Result<Receipt, SaleError>)
    requires store.Valid()
    modifies store, tracker
    ensures store.Valid()
    ensures (request.NoBody? || request.items.None?) ==> r == Failure(MissingItems)
    ensures request.Body? && request.items.Some? && ResolvePaymentMethod(request.paymentMethod).Failure? ==>
      r == Failure(InvalidPaymentMethod)
    ensures r.Failure? ==> unchanged(store) && unchanged(tracker)
    ensures r.Success? ==> request.Body? && request.items.Some? && ResolvePaymentMethod(request.paymentMethod).Success?
    ensures request.Body? && request.items.Some? && ResolvePaymentMethod(request.paymentMethod).Success? ==>
      var m := ResolvePaymentMethod(request.paymentMethod).value;
      var plan := PlanSale(old(store.products), request.items.value);
      && m in PaymentMethods
      && (r.Success? <==> plan.Success? && !storeFault)
      && (r.Failure? ==> r.error == if plan.Failure? then plan.error else DbError)
      && (r.Success? ==> r.value == ReceiptFor(plan.value, old(store.nextId), m, stamp, DefaultThreshold))
      && (r.Success? ==>
            var p := plan.value;
            var id := old(store.nextId);
            && store.headers == old(store.headers) + [Header(id, p.total, stamp, m)]
            && store.ledger == old(store.ledger) + LedgerLines(p.lines, id)
            && store.products == ApplySale(old(store.products), p.combined)
            && store.nextId == id + 1
            && tracker.sessions == if m == "qr" then OpenIn(old(tracker.sessions), id, p.total, clock)
                                   else old(tracker.sessions))
  {
    if request.NoBody? || request.items.None? {
      return Failure(MissingItems);
    }
    var resolved := ResolvePaymentMethod(request.paymentMethod);
    if resolved.Failure? {
      return Failure(InvalidPaymentMethod);
    }
    r := SellProducts(store, tracker, request.items.value, resolved.value, DefaultThreshold, stamp, clock, storeFault);
  }
}
