/**
  The inventory report page: each product's stock status and value, the
  "only low stock" view, and the CSV export of the rows on screen. Prices are
  in cents and quantities are integers; a number written into the CSV is the
  shortest decimal text of its value, as JavaScript's String() gives it.
*/
module InventoryReport {
  import opened Wrappers
  import opened Text

  /** A product as the page stores it. */
  datatype Item = Item(code: string, name: string, qty: int, threshold: int, price: int)

  datatype StockStatus = OutOfStock | LowStock | InStock

  /** status(): out of stock at zero or less whatever the threshold, low at or below the threshold, else in stock. */
  function StatusOf(p: Item): (s: StockStatus)
    ensures s == OutOfStock <==> p.qty <= 0
    ensures s == LowStock <==> 0 < p.qty <= p.threshold
    ensures s == InStock <==> p.qty > 0 && p.qty > p.threshold
  {
    if p.qty <= 0 then OutOfStock else if p.qty <= p.threshold then LowStock else InStock
  }

  function StatusText(s: StockStatus): string {
    match s
    case OutOfStock => "Out of stock"
    case LowStock => "Low stock"
    case InStock => "In stock"
  }

  /** valuation(): unit price times quantity. */
  function Valuation(p: Item): (v: int)
    ensures p.qty == 0 ==> v == 0
    ensures p.price >= 0 && p.qty >= 0 ==> v >= 0
  {
    p.price * p.qty
  }

  /** The test of the "only low stock" box: at or below the threshold. */
  predicate IsLow(p: Item) {
    p.qty <= p.threshold
  }

  /** products.filter(p => p.qty <= p.threshold). */
  function KeepLow(ps: seq<Item>): (r: seq<Item>)
    ensures |r| <= |ps|
    ensures forall i :: 0 <= i < |r| ==> IsLow(r[i])
  {
    if ps == [] then [] else KeepLow(ps[..|ps| - 1]) + (if IsLow(ps[|ps| - 1]) then [ps[|ps| - 1]] else [])
  }

  /** The rows render() shows: the low ones when the box is checked, all of them otherwise. */
  function Rendered(ps: seq<Item>, onlyLow: bool): (r: seq<Item>)
    ensures |r| <= |ps|
    ensures onlyLow ==> forall i :: 0 <= i < |r| ==> IsLow(r[i])
  {
    if onlyLow then KeepLow(ps) else ps
  }

  /** The positions of the low products, in order. */
  function LowIndices(ps: seq<Item>): seq<nat> {
    if ps == [] then [] else LowIndices(ps[..|ps| - 1]) + (if IsLow(ps[|ps| - 1]) then [|ps| - 1] else [])
  }

  /** r is the products at the strictly increasing positions idx, and idx holds exactly the positions where keep holds. */
  predicate Picks(ps: seq<Item>, idx: seq<nat>, r: seq<Item>) {
    && |idx| == |r|
    && (forall i :: 0 <= i < |idx| ==> idx[i] < |ps| && r[i] == ps[idx[i]])
    && (forall i, j :: 0 <= i < j < |idx| ==> idx[i] < idx[j])
    && (forall j :: 0 <= j < |ps| ==> (j in idx <==> IsLow(ps[j])))
  }

  /**
    With the box checked, the rows on screen are exactly the products at or
    below their threshold, each once, in their original order; unchecked, all
    products are shown.
  */
  lemma {:induction false} RenderedRows(ps: seq<Item>, onlyLow: bool)
    ensures !onlyLow ==> Rendered(ps, onlyLow) == ps
    ensures onlyLow ==> Picks(ps, LowIndices(ps), Rendered(ps, onlyLow))
  {
    if onlyLow && ps != [] {
      var init := ps[..|ps| - 1];
      RenderedRows(init, true);
      PicksStep(ps, LowIndices(init), KeepLow(init));
    }
  }

  lemma PicksStep(ps: seq<Item>, idx: seq<nat>, r: seq<Item>)
    requires ps != [] && Picks(ps[..|ps| - 1], idx, r)
    ensures var n := |ps| - 1;
      Picks(ps, idx + (if IsLow(ps[n]) then [n] else []), r + (if IsLow(ps[n]) then [ps[n]] else []))
  {
    var n := |ps| - 1;
    var init := ps[..n];
    assert forall j :: 0 <= j < n ==> init[j] == ps[j];
    assert n !in idx;
    if IsLow(ps[n]) {
      var idx', r' := idx + [n], r + [ps[n]];
      assert forall i :: 0 <= i < |idx| ==> idx'[i] == idx[i] && r'[i] == r[i];
      assert idx'[|idx|] == n && r'[|idx|] == ps[n];
      assert forall j :: j in idx' <==> j in idx || j == n;
    } else {
      assert idx + [] == idx && r + [] == r;
    }
  }

  /** An out-of-stock product can still be left out by the box: it tests the threshold, not the status. */
  lemma OnlyLowAgreesWithStatus(p: Item)
    ensures p.threshold >= 0 ==> (IsLow(p) <==> StatusOf(p) != InStock)
    ensures p.threshold < 0 && p.threshold < p.qty <= 0 ==> StatusOf(p) == OutOfStock && !IsLow(p)
  {
  }

  // ---------------------------------------------------------------------------
  // Numbers as String() writes them
  // ---------------------------------------------------------------------------

  /** A count of cents as the shortest decimal: no fraction for whole amounts, trailing zeros dropped. */
  function AmountText(c: int): (s: string)
    ensures |s| >= 1
  {
    var a := if c < 0 then -c else c;
    (if c < 0 then "-" else "") + (Numeral(a / 100) + FractionText(a % 100))
  }

  /** The fraction part of a count of cents: nothing, one digit, or two digits after the point. */
  function FractionText(f: nat): (s: string)
    requires f < 100
    ensures s == [] <==> f == 0
    ensures s != [] ==> s[0] == '.'
  {
    if f == 0 then "" else if f % 10 == 0 then "." + [DigitChar(f / 10)] else "." + Padded(f, 2)
  }

  /** Different fractions are written differently. */
  lemma FractionTextInjective(f: nat, g: nat)
    requires f < 100 && g < 100 && FractionText(f) == FractionText(g)
    ensures f == g
  {
    assert Pow10(2) == 100 by {
      assert Pow10(1) == 10;
    }
    if f != 0 && f % 10 != 0 {
      PaddedLength(f, 2);
    }
    if g != 0 && g % 10 != 0 {
      PaddedLength(g, 2);
    }
    if f != 0 && g != 0 {
      var t := FractionText(f);
      if f % 10 == 0 && g % 10 == 0 {
        assert t[1] == DigitChar(f / 10) && t[1] == DigitChar(g / 10);
      } else if f % 10 != 0 && g % 10 != 0 {
        assert t[1..] == Padded(f, 2) && t[1..] == Padded(g, 2);
        PaddedInjective(f, g, 2);
      }
    }
  }

  /** The number of digits a text starts with. */
  function LeadingDigits(s: string): nat {
    if s == [] || !('0' <= s[0] <= '9') then 0 else 1 + LeadingDigits(s[1..])
  }

  lemma {:induction false} LeadingDigitsOf(x: string, y: string)
    requires IsDigits(x) && (y == [] || y[0] == '.')
    ensures LeadingDigits(x + y) == |x|
  {
    if x == [] {
      assert x + y == y;
    } else {
      assert (x + y)[0] == x[0];
      assert (x + y)[1..] == x[1..] + y;
      assert IsDigits(x[1..]) by {
        assert forall i :: 0 <= i < |x[1..]| ==> x[1..][i] == x[i + 1];
      }
      LeadingDigitsOf(x[1..], y);
    }
  }

  /** A run of digits followed by nothing or by a point splits back into the same two parts. */
  lemma DigitsThenPoint(x1: string, y1: string, x2: string, y2: string)
    requires IsDigits(x1) && IsDigits(x2)
    requires (y1 == [] || y1[0] == '.') && (y2 == [] || y2[0] == '.')
    requires x1 + y1 == x2 + y2
    ensures x1 == x2 && y1 == y2
  {
    var s := x1 + y1;
    LeadingDigitsOf(x1, y1);
    LeadingDigitsOf(x2, y2);
    assert x1 == s[..|x1|] && x2 == s[..|x2|];
    assert y1 == s[|x1|..] && y2 == s[|x2|..];
  }

  /** String() never writes two different amounts of cents the same way. */
  lemma AmountTextInjective(c1: int, c2: int)
    requires AmountText(c1) == AmountText(c2)
    ensures c1 == c2
  {
    var a1 := if c1 < 0 then -c1 else c1;
    var a2 := if c2 < 0 then -c2 else c2;
    var b1 := Numeral(a1 / 100) + FractionText(a1 % 100);
    var b2 := Numeral(a2 / 100) + FractionText(a2 % 100);
    assert b1[0] == Numeral(a1 / 100)[0] && b2[0] == Numeral(a2 / 100)[0];
    assert (c1 < 0) == (c2 < 0) by {
      assert AmountText(c1)[0] == (if c1 < 0 then '-' else b1[0]);
      assert AmountText(c2)[0] == (if c2 < 0 then '-' else b2[0]);
    }
    assert b1 == b2 by {
      if c1 < 0 {
        assert b1 == AmountText(c1)[1..] && b2 == AmountText(c2)[1..];
      } else {
        assert AmountText(c1) == b1 && AmountText(c2) == b2;
      }
    }
    DigitsThenPoint(Numeral(a1 / 100), FractionText(a1 % 100), Numeral(a2 / 100), FractionText(a2 % 100));
    NumeralRoundTrip(a1 / 100);
    NumeralRoundTrip(a2 / 100);
    FractionTextInjective(a1 % 100, a2 % 100);
  }

  // ---------------------------------------------------------------------------
  // The CSV writer
  // ---------------------------------------------------------------------------

  /** Every quote doubled. */
  function Escape(v: string): (e: string)
    ensures |e| >= |v|
  {
    if v == [] then [] else (if v[0] == '"' then "\"\"" else [v[0]]) + Escape(v[1..])
  }

  function Quote(v: string): string {
    "\"" + (Escape(v) + "\"")
  }

  /** The quoted fields of one record joined with commas. */
  function Record(fs: seq<string>): (s: string)
    ensures fs != [] ==> |s| >= 2 && s[0] == '"' && s[|s| - 1] == '"'
  {
    if fs == [] then []
    else if |fs| == 1 then Quote(fs[0])
    else Quote(fs[0]) + ("," + Record(fs[1..]))
  }

  /** csv(): the records joined with line feeds, with no line break after the last. */
  function Csv(rows: seq<seq<string>>): (s: string)
    ensures rows != [] && rows[0] != [] ==> |s| >= 2 && s[0] == '"'
  {
    if rows == [] then []
    else if |rows| == 1 then Record(rows[0])
    else Record(rows[0]) + ("\n" + Csv(rows[1..]))
  }

  // ---------------------------------------------------------------------------
  // A reader for that CSV
  // ---------------------------------------------------------------------------

  datatype Scanned = Scanned(value: string, rest: string)

  /** The value of a quoted field whose opening quote has been read: a doubled quote is one quote, a single one closes the field. */
  function ReadQuoted(s: string): (r: Option<Scanned>)
    ensures r.Some? ==> |r.value.rest| < |s|
    decreases |s|
  {
    if s == [] then None
    else if s[0] == '"' then
      if |s| >= 2 && s[1] == '"' then
        match ReadQuoted(s[2..])
        case None => None
        case Some(sc) => Some(Scanned("\"" + sc.value, sc.rest))
      else Some(Scanned([], s[1..]))
    else
      match ReadQuoted(s[1..])
      case None => None
      case Some(sc) => Some(Scanned([s[0]] + sc.value, sc.rest))
  }

  /** One record's fields and the text after it; more says a line feed ended the record. */
  datatype Fields = Fields(values: seq<string>, rest: string, more: bool)

  function ParseFields(s: string): (r: Option<Fields>)
    ensures r.Some? ==> |r.value.rest| < |s|
    decreases |s|
  {
    if s == [] || s[0] != '"' then None
    else
      match ReadQuoted(s[1..])
      case None => None
      case Some(sc) =>
        if sc.rest == [] then Some(Fields([sc.value], [], false))
        else if sc.rest[0] == ',' then
          match ParseFields(sc.rest[1..])
          case None => None
          case Some(f) => Some(Fields([sc.value] + f.values, f.rest, f.more))
        else if sc.rest[0] == '\n' then Some(Fields([sc.value], sc.rest[1..], true))
        else None
  }

  function ParseRows(s: string): Option<seq<seq<string>>>
    decreases |s|
  {
    match ParseFields(s)
    case None => None
    case Some(f) =>
      if !f.more then Some([f.values])
      else
        match ParseRows(f.rest)
        case None => None
        case Some(rs) => Some([f.values] + rs)
  }

  function ParseCsv(s: string): Option<seq<seq<string>>> {
    if s == [] then Some([]) else ParseRows(s)
  }

  /** An escaped value followed by a closing quote reads back as the value, stopping right after that quote. */
  lemma {:induction false} ReadQuotedEscape(v: string, t: string)
    requires t == [] || t[0] != '"'
    ensures ReadQuoted(Escape(v) + ("\"" + t)) == Some(Scanned(v, t))
    decreases |v|
  {
    var s := Escape(v) + ("\"" + t);
    if v == [] {
      assert s == "\"" + t;
      assert s[1..] == t;
    } else if v[0] == '"' {
      var tail := Escape(v[1..]) + ("\"" + t);
      assert s == "\"\"" + tail;
      assert s[2..] == tail;
      ReadQuotedEscape(v[1..], t);
      assert "\"" + v[1..] == v;
    } else {
      var tail := Escape(v[1..]) + ("\"" + t);
      assert s == [v[0]] + tail;
      assert s[1..] == tail;
      ReadQuotedEscape(v[1..], t);
      assert [v[0]] + v[1..] == v;
    }
  }

  /** A quoted field followed by text that does not start with a quote reads back as the field. */
  lemma ReadQuote(f: string, u: string)
    requires u == [] || u[0] != '"'
    ensures var s := Quote(f) + u; s != [] && s[0] == '"' && ReadQuoted(s[1..]) == Some(Scanned(f, u))
  {
    var s := Quote(f) + u;
    assert s == "\"" + (Escape(f) + ("\"" + u));
    assert s[1..] == Escape(f) + ("\"" + u);
    ReadQuotedEscape(f, u);
  }

  /** What a record followed by t reads back as: its fields, and the text after the line feed if one follows. */
  function AfterRecord(fs: seq<string>, t: string): Fields
    requires t == [] || t[0] == '\n'
  {
    if t == [] then Fields(fs, [], false) else Fields(fs, t[1..], true)
  }

  lemma LastFieldRoundTrip(f: string, t: string)
    requires t == [] || t[0] == '\n'
    ensures ParseFields(Quote(f) + t) == Some(AfterRecord([f], t))
  {
    ReadQuote(f, t);
  }

  lemma {:induction false} FieldsRoundTrip(fs: seq<string>, t: string)
    requires fs != [] && (t == [] || t[0] == '\n')
    ensures ParseFields(Record(fs) + t) == Some(AfterRecord(fs, t))
    decreases |fs|
  {
    if |fs| == 1 {
      LastFieldRoundTrip(fs[0], t);
      assert [fs[0]] == fs;
    } else {
      FieldsRoundTrip(fs[1..], t);
      RecordStep(fs, t);
      FieldStep(fs[0], Record(fs[1..]) + t, AfterRecord(fs[1..], t));
      assert [fs[0]] + fs[1..] == fs;
    }
  }

  lemma RecordStep(fs: seq<string>, t: string)
    requires |fs| > 1
    ensures Record(fs) + t == Quote(fs[0]) + ("," + (Record(fs[1..]) + t))
  {
    var q, r := Quote(fs[0]), Record(fs[1..]);
    assert Record(fs) == q + ("," + r);
    Associative(q, "," + r, t);
    Associative(",", r, t);
  }

  lemma Associative(a: string, b: string, c: string)
    ensures (a + b) + c == a + (b + c)
  {
  }

  /** A field and a comma in front of fields that read back as f read back as one more field. */
  lemma FieldStep(v: string, w: string, f: Fields)
    requires ParseFields(w) == Some(f)
    ensures ParseFields(Quote(v) + ("," + w)) == Some(Fields([v] + f.values, f.rest, f.more))
  {
    var u := "," + w;
    ReadQuote(v, u);
    assert u[1..] == w;
  }

  lemma {:induction false} RowsRoundTrip(rows: seq<seq<string>>)
    requires rows != [] && forall i :: 0 <= i < |rows| ==> rows[i] != []
    ensures ParseRows(Csv(rows)) == Some(rows)
    decreases |rows|
  {
    if |rows| == 1 {
      assert Csv(rows) == Record(rows[0]) + [];
      FieldsRoundTrip(rows[0], []);
      assert rows == [rows[0]];
    } else {
      assert forall i :: 0 <= i < |rows[1..]| ==> rows[1..][i] == rows[i + 1];
      RowsRoundTrip(rows[1..]);
      RowsStep(rows);
    }
  }

  /** One more record in front of a CSV that reads back reads back with it. */
  lemma RowsStep(rows: seq<seq<string>>)
    requires |rows| >= 2 && rows[0] != []
    requires ParseRows(Csv(rows[1..])) == Some(rows[1..])
    ensures ParseRows(Csv(rows)) == Some(rows)
  {
    var t := "\n" + Csv(rows[1..]);
    FieldsRoundTrip(rows[0], t);
    assert t[1..] == Csv(rows[1..]);
    ParseRowsMore(Record(rows[0]) + t, Fields(rows[0], t[1..], true), rows[1..]);
    assert [rows[0]] + rows[1..] == rows;
  }

  lemma ParseRowsMore(s: string, f: Fields, rs: seq<seq<string>>)
    requires ParseFields(s) == Some(f) && f.more && ParseRows(f.rest) == Some(rs)
    ensures ParseRows(s) == Some([f.values] + rs)
  {
  }

  /**
    The CSV reads back as the same records, so it has exactly one record per
    row and every field is recovered, quotes, commas and line feeds included:
    no quote inside a field is left undoubled. A non-empty file (every record
    having a field) begins with a quote and ends with the closing quote of its
    last field, not with a line break.
  */
  lemma CsvRoundTrip(rows: seq<seq<string>>)
    requires forall i :: 0 <= i < |rows| ==> rows[i] != []
    ensures ParseCsv(Csv(rows)) == Some(rows)
    ensures rows != [] ==> var s := Csv(rows); |s| >= 2 && s[0] == '"' && s[|s| - 1] == '"'
  {
    if rows != [] {
      CsvEnds(rows);
      RowsRoundTrip(rows);
    }
  }

  lemma {:induction false} CsvEnds(rows: seq<seq<string>>)
    requires rows != [] && forall i :: 0 <= i < |rows| ==> rows[i] != []
    ensures var s := Csv(rows); |s| >= 2 && s[0] == '"' && s[|s| - 1] == '"'
    decreases |rows|
  {
    if |rows| > 1 {
      assert forall i :: 0 <= i < |rows[1..]| ==> rows[1..][i] == rows[i + 1];
      CsvEnds(rows[1..]);
    }
  }

  // ---------------------------------------------------------------------------
  // The export
  // ---------------------------------------------------------------------------

  const ExportHeader: seq<string> := ["Code", "Name", "Qty", "Threshold", "Unit Price", "Value", "Status"]

  /** One exported row: code, name, quantity, threshold, unit price, value and status. */
  function ExportRow(p: Item): (cells: seq<string>)
    ensures |cells| == |ExportHeader|
  {
    [p.code, p.name, IntText(p.qty), IntText(p.threshold), AmountText(p.price), AmountText(Valuation(p)), StatusText(StatusOf(p))]
  }

  /** The header row, then one row per product on screen. */
  function ExportTable(ps: seq<Item>, onlyLow: bool): seq<seq<string>> {
    var shown := Rendered(ps, onlyLow);
    [ExportHeader] + seq(|shown|, i requires 0 <= i < |shown| => ExportRow(shown[i]))
  }

  /**
    The exported file reads back as the header row followed by one row per
    product on screen, in screen order, each row carrying that product's value
    (price times quantity) and status.
  */
  lemma ExportFile(ps: seq<Item>, onlyLow: bool)
    ensures var shown := Rendered(ps, onlyLow);
      var back := ParseCsv(Csv(ExportTable(ps, onlyLow)));
      && back.Some?
      && |back.value| == |shown| + 1
      && back.value[0] == ExportHeader
      && forall i :: 0 <= i < |shown| ==> back.value[i + 1] == ExportRow(shown[i])
  {
    var t := ExportTable(ps, onlyLow);
    assert forall i :: 0 <= i < |t| ==> |t[i]| == 7;
    CsvRoundTrip(t);
  }

  /** 12.50 is written "12.5": the trailing zero of the cents is dropped. */
  lemma AmountTextDropsTrailingZero()
    ensures AmountText(1250) == "12.5"
  {
    assert Numeral(12) == "12" by {
      assert Numeral(1) == "1";
    }
    assert FractionText(50) == ".5";
  }

  /** 12.00 is written "12": a whole amount has no fraction. */
  lemma AmountTextOfWholeAmount()
    ensures AmountText(1200) == "12"
  {
    assert Numeral(12) == "12" by {
      assert Numeral(1) == "1";
    }
    assert FractionText(0) == "";
  }

  /** -0.05 is written "-0.05". */
  lemma AmountTextOfNegativeCents()
    ensures AmountText(-5) == "-0.05"
  {
    assert Padded(5, 2) == "05";
    assert FractionText(5) == ".05";
    assert Numeral(0) == "0";
  }
}
